// AuthManger: the login scene. Account creation and login are guard
// chains over the form fields; after sign-in the shop record is loaded from
// Firestore (or a default one created), normalised and cached, and the app
// is routed to the shop settings (in edit mode) or the homepage. At start-up
// a valid cache for the same user skips Firestore. Firebase Auth and
// Firestore answers are parameters; the MailAddress check is the parameter
// `isValidEmail`; the clock is `now`; a user is known by its id.
module Auth {
  import opened Wrappers
  import opened DotNetText
  import opened ShopRecords
  import ShopSession
  import ShopSetting

  const MinPasswordLength: int := 6
  /** The trial length when the global configuration is not loaded. */
  const DefaultTrialDays: int := 14
  const RepairedLicenseDays: int := 14
  const BasicPackage: string := "Basic"
  const ProPackage: string := "Pro"
  const IndustryPlaceholder: string := "Chọn Ngành hàng..."
  const ProviderPlaceholder: string := "Chọn Nhà cung cấp..."
  const FormPlaceholder: string := "Chọn Form..."
  const TypePlaceholder: string := "Chọn Type..."

  // ---------------------------------------------------------------------
  // Form checks

  datatype FormRejection = MissingField | ShortPassword | BadEmail | PasswordMismatch | Offline

  /** What a click on "create account" or "log in" does: refuse with the
      first failed check, or send the request. */
  datatype FormDecision =
    | Refused(reason: FormRejection)
    | Register(email: string, password: string, username: string)
    | SignIn(email: string, password: string)

  /** OnCreateAccountButtonClicked: username and email are trimmed, the
      passwords are not. */
  function CreateAccountDecision(username: string, email: string, password: string, confirm: string,
                                 isValidEmail: string -> bool, online: bool): FormDecision
  {
    var u := Trim(username);
    var e := Trim(email);
    if u == "" || e == "" || password == "" || confirm == "" then Refused(MissingField)
    else if |password| < MinPasswordLength then Refused(ShortPassword)
    else if !isValidEmail(e) then Refused(BadEmail)
    else if password != confirm then Refused(PasswordMismatch)
    else if !online then Refused(Offline)
    else Register(e, password, u)
  }

  /** An account is requested exactly when every field is filled, the
      password has at least six characters, the trimmed email is valid,
      both passwords agree and the device is online; each refusal implies
      that every earlier check passed. */
  lemma CreateAccountSpec(username: string, email: string, password: string, confirm: string,
                          isValidEmail: string -> bool, online: bool)
    ensures var d := CreateAccountDecision(username, email, password, confirm, isValidEmail, online);
      var filled := Trim(username) != "" && Trim(email) != "" && password != "" && confirm != "";
      (d.Register? <==>
         filled && |password| >= MinPasswordLength && isValidEmail(Trim(email)) && password == confirm && online)
      && (d.Register? ==> d == Register(Trim(email), password, Trim(username)))
      && !d.SignIn?
      && (d == Refused(MissingField) <==> !filled)
      && (d == Refused(ShortPassword) ==> filled)
      && (d == Refused(BadEmail) ==> filled && |password| >= MinPasswordLength)
      && (d == Refused(PasswordMismatch) ==> filled && |password| >= MinPasswordLength && isValidEmail(Trim(email)))
      && (d == Refused(Offline) ==>
            filled && |password| >= MinPasswordLength && isValidEmail(Trim(email)) && password == confirm)
  {
  }

  /** OnLoginButtonClicked. */
  function LoginDecision(email: string, password: string, online: bool): FormDecision
  {
    if Trim(email) == "" || password == "" then Refused(MissingField)
    else if !online then Refused(Offline)
    else SignIn(Trim(email), password)
  }

  lemma LoginSpec(email: string, password: string, online: bool)
    ensures var d := LoginDecision(email, password, online);
      (d.SignIn? <==> Trim(email) != "" && password != "" && online)
      && (d.SignIn? ==> d.email == Trim(email) && d.password == password)
      && (d == Refused(MissingField) <==> Trim(email) == "" || password == "")
      && (d.Refused? ==> d.reason.MissingField? || d.reason.Offline?)
  {
  }

  // ---------------------------------------------------------------------
  // Firebase errors

  /** The AuthError code of a FirebaseException; the exception's message
      travels beside it. */
  datatype AuthError =
    | UserNotFound
    | WrongPassword
    | InvalidEmail
    | UserDisabled
    | TooManyRequests
    | NetworkRequestFailed
    | EmailAlreadyInUse
    | WeakPassword
    | OtherError

  const WrongCredentialsMsg: string := "Email hoặc mật khẩu không đúng."
  const FirebaseErrorPrefix: string := "Lỗi Firebase: "
  const RegisteredMsg: string :=
    "Tạo tài khoản thành công! Vui lòng kiểm tra email của bạn (bao gồm cả thư mục Spam/Junk) để xác minh tài khoản trước khi đăng nhập."

  /** The login popup for a FirebaseException with code `e` and message
      `m`. */
  function LoginErrorMessage(e: AuthError, m: string): string
  {
    match e
    case UserNotFound => WrongCredentialsMsg
    case WrongPassword => WrongCredentialsMsg
    case InvalidEmail => "Địa chỉ email không hợp lệ."
    case UserDisabled => "Tài khoản của bạn đã bị vô hiệu hóa."
    case TooManyRequests => "Quá nhiều lần đăng nhập thất bại. Vui lòng thử lại sau."
    case NetworkRequestFailed => "Không có kết nối Internet hoặc lỗi mạng khi đăng nhập. Vui lòng kiểm tra mạng."
    case _ => FirebaseErrorPrefix + m
  }

  /** A wrong password and an unknown user get the same message, and no
      other error gets it, whatever its message, so the popup does not
      tell which of the two happened. */
  lemma LoginMessageHidesWhichCredential(e: AuthError, m: string)
    ensures LoginErrorMessage(e, m) == WrongCredentialsMsg <==> e.UserNotFound? || e.WrongPassword?
  {
    if e.OtherError? || e.EmailAlreadyInUse? || e.WeakPassword? {
      assert LoginErrorMessage(e, m)[0] == 'L' != WrongCredentialsMsg[0];
    }
  }

  /** The popup after a failed registration. */
  function RegisterErrorMessage(e: AuthError, m: string): string
  {
    match e
    case EmailAlreadyInUse => "Email này đã được sử dụng. Vui lòng thử email khác hoặc đăng nhập."
    case WeakPassword => "Mật khẩu quá yếu. Firebase yêu cầu tối thiểu 6 ký tự. Vui lòng đặt mật khẩu mạnh hơn."
    case InvalidEmail => "Địa chỉ email không hợp lệ."
    case NetworkRequestFailed => "Không có kết nối Internet hoặc lỗi mạng. Vui lòng kiểm tra mạng và thử lại."
    case _ => FirebaseErrorPrefix + m
  }

  // ---------------------------------------------------------------------
  // Shop records at sign-in

  /** `GlobalAppConfig?.FreeTrialDurationDays ?? 14`. */
  function TrialDays(config: Option<GlobalAppConfig>): int
  {
    if config.Some? then config.value.freeTrialDurationDays else DefaultTrialDays
  }

  /** The shop document created for a new account or a user without one:
      no name, placeholders in the dropdown fields, a trial license on the
      Pro package. */
  function DefaultShop(now: Timestamp, config: Option<GlobalAppConfig>): ShopData
  {
    ShopData(Some(""), Some(""), Some(""), Some(IndustryPlaceholder), Some(ProviderPlaceholder),
             Some(""), Some(""), Some(""), Some(FormPlaceholder), Some(TypePlaceholder), Some(""), 0,
             AddDays(now, TrialDays(config)), Some(ProPackage))
  }

  /** An existing shop as LoadAndCacheShopData keeps it: a MinValue
      license end becomes two weeks from now and an empty package becomes
      Basic. The test for a null license end can never succeed (the
      property is a struct), so a document without one keeps the epoch. */
  function Normalised(d: ShopData, now: Timestamp): ShopData
  {
    var d1 := if d.licenseEndDate == MinTimestamp
              then d.(licenseEndDate := AddDays(now, RepairedLicenseDays)) else d;
    if IsNullOrEmpty(d1.packageType) then d1.(packageType := Some(BasicPackage)) else d1
  }

  /** The shop cached after sign-in, from the stored document if any. */
  function LoadedShop(stored: Option<ShopData>, now: Timestamp, config: Option<GlobalAppConfig>): ShopData
  {
    if stored.Some? then Normalised(stored.value, now) else DefaultShop(now, config)
  }

  /** After sign-in the cached shop always has a package; a repaired or
      trial license has not yet run out; and an existing shop keeps every
      other field and any license end other than MinValue. */
  lemma LoadedShopSpec(stored: Option<ShopData>, now: Timestamp, config: Option<GlobalAppConfig>)
    requires TrialDays(config) >= 0
    ensures var d := LoadedShop(stored, now, config);
      !IsNullOrEmpty(d.packageType)
      && (stored.None? || stored.value.licenseEndDate == MinTimestamp ==>
            !Before(d.licenseEndDate, now))
      && (stored.None? ==> d == DefaultShop(now, config) && d.shopName == Some(""))
      && (stored.Some? ==>
            d.(licenseEndDate := stored.value.licenseEndDate, packageType := stored.value.packageType) == stored.value
            && (stored.value.licenseEndDate != MinTimestamp ==>
                  d.licenseEndDate == stored.value.licenseEndDate)
            && (!IsNullOrEmpty(stored.value.packageType) ==> d.packageType == stored.value.packageType))
  {
  }

  // ---------------------------------------------------------------------
  // Routing

  datatype Scene = LoginScene | ShopSettingScene | HomepageScene

  /** PerformInitialRedirection's choice for a signed-in user. */
  function Destination(d: ShopData, now: Timestamp): Scene
  {
    if IsNullOrEmpty(d.shopName) then ShopSettingScene
    else if Before(d.licenseEndDate, now) then ShopSettingScene
    else HomepageScene
  }

  /** The homepage is reached exactly when the shop has a name and the
      license screen would show its homepage button. */
  lemma DestinationSpec(d: ShopData, now: Timestamp)
    ensures Destination(d, now) != LoginScene
    ensures Destination(d, now) == HomepageScene <==>
      !IsNullOrEmpty(d.shopName) && ShopSetting.HomepageVisible(Some(d), now)
  {
  }

  /** A shop created at sign-in has no name, so it is sent to the shop
      settings whatever its license. */
  lemma NewShopGoesToSettings(now: Timestamp, config: Option<GlobalAppConfig>)
    ensures Destination(LoadedShop(None, now, config), now) == ShopSettingScene
  {
  }

  /** Whether ProcessLoginState redirects from what LoadFromPlayerPrefs
      loaded: a signed-in user, a load that returned true, the same user
      id, and not straight after a logout. */
  predicate CacheUsed(prefs: ShopSession.Prefs, currentUser: Option<string>, comingFromLogout: bool)
  {
    currentUser.Some? && ShopSession.CachedUserId in prefs && ShopSession.LoadResult(prefs) == Ok(true)
    && Some(ShopSession.GetString(prefs, ShopSession.CachedUserId, "")) == currentUser
    && !comingFromLogout
  }

  class AuthManager {
    /** The signed-in Firebase user, by id. */
    var user: Option<string>
    /** AuthSession.ComingFromLogout. */
    var comingFromLogout: bool
    /** AuthManager.GlobalAppConfig. */
    var globalConfig: Option<GlobalAppConfig>
    /** The PlayerPrefs key "EnterShopSettingEditMode" is set. */
    var editFlag: bool
    var scene: Scene
    /** Default shop documents written with SetAsync, as (user id, data). */
    var shopWrites: seq<(string, ShopData)>

    constructor(comingFromLogout: bool, globalConfig: Option<GlobalAppConfig>, editFlag: bool)
      ensures user == None && this.comingFromLogout == comingFromLogout && this.globalConfig == globalConfig
      ensures this.editFlag == editFlag && scene == LoginScene && shopWrites == []
    {
      user := None;
      this.comingFromLogout := comingFromLogout;
      this.globalConfig := globalConfig;
      this.editFlag := editFlag;
      scene := LoginScene;
      shopWrites := [];
    }

    /** LoadAndCacheShopData: `stored` is the shop document, if it exists;
        a missing one is created with the defaults. */
    method LoadAndCacheShopData(session: ShopSession.Session, userId: string, stored: Option<ShopData>,
                                now: Timestamp)
      modifies session, this`shopWrites
      ensures session.cachedUserId == Some(userId)
      ensures session.cachedShop == Some(LoadedShop(stored, now, globalConfig))
      ensures session.prefs == ShopSession.Saved(old(session.prefs), Some(userId), LoadedShop(stored, now, globalConfig))
      ensures session.packageConfig == old(session.packageConfig) && session.globalConfig == old(session.globalConfig)
      ensures shopWrites == old(shopWrites) + (if stored.None? then [(userId, DefaultShop(now, globalConfig))] else [])
    {
      var d: ShopData;
      if stored.Some? {
        d := stored.value;
        if d.licenseEndDate == MinTimestamp {
          d := d.(licenseEndDate := AddDays(now, RepairedLicenseDays));
        }
        if IsNullOrEmpty(d.packageType) {
          d := d.(packageType := Some(BasicPackage));
        }
      } else {
        d := DefaultShop(now, globalConfig);
        shopWrites := shopWrites + [(userId, d)];
      }
      session.SetCachedShopSettings(Some(userId), d);
    }

    /** RegisterUser after CreateUserWithEmailAndPasswordAsync: `created`
        is the new user's id, or the error code and message. A new account
        gets the default shop document, is signed out again and is sent to
        the login panel; closing the confirmation popup marks a logout. */
    method RegisterUser(created: Result<string>, error: AuthError, now: Timestamp) returns (popup: string)
      modifies this`shopWrites, this`scene, this`comingFromLogout
      ensures created.Ok? ==>
                shopWrites == old(shopWrites) + [(created.value, DefaultShop(now, globalConfig))]
                && scene == LoginScene && comingFromLogout && popup == RegisteredMsg
      ensures created.Err? ==>
                popup == RegisterErrorMessage(error, created.error)
                && shopWrites == old(shopWrites) && scene == old(scene)
                && comingFromLogout == old(comingFromLogout)
    {
      if created.Err? {
        return RegisterErrorMessage(error, created.error);
      }
      shopWrites := shopWrites + [(created.value, DefaultShop(now, globalConfig))];
      scene := LoginScene;
      popup := RegisteredMsg;
      comingFromLogout := true;
    }

    /** PerformInitialRedirection: without a user the login panel; else
        the shop settings with the edit flag set, or the homepage with the
        flag removed. */
    method PerformInitialRedirection(d: ShopData, now: Timestamp)
      modifies this`editFlag, this`scene
      ensures user.None? ==> scene == LoginScene && editFlag == old(editFlag)
      ensures user.Some? ==> scene == Destination(d, now) && editFlag == (scene == ShopSettingScene)
    {
      if user.None? {
        scene := LoginScene;
        return;
      }
      if IsNullOrEmpty(d.shopName) {
        editFlag := true;
        scene := ShopSettingScene;
        return;
      }
      if Before(d.licenseEndDate, now) {
        editFlag := true;
        scene := ShopSettingScene;
        return;
      }
      editFlag := false;
      scene := HomepageScene;
    }

    /** ProcessLoginState at start-up: `currentUser` is auth.CurrentUser
        and `stored` the user's shop document. The cache is used only for
        a signed-in user, a load that succeeded, the same user id, and not
        straight after a logout; otherwise the logout mark is cleared and a
        signed-in user's shop is loaded from Firestore. A stored license
        date out of DateTime's range makes the load throw and ends the
        start-up (`threw`). */
    method ProcessLoginState(session: ShopSession.Session, currentUser: Option<string>,
                             stored: Option<ShopData>, now: Timestamp)
      returns (threw: bool)
      modifies session, this`user, this`comingFromLogout, this`editFlag, this`scene, this`shopWrites
      ensures var prefs := old(session.prefs);
        (threw <==> ShopSession.CachedUserId in prefs && ShopSession.LoadResult(prefs).Err?)
        && (threw ==>
              user == old(user) && comingFromLogout == old(comingFromLogout) && editFlag == old(editFlag)
              && scene == old(scene) && shopWrites == old(shopWrites))
        && (!threw ==>
              user == currentUser
              && (CacheUsed(prefs, currentUser, old(comingFromLogout)) ==>
                    comingFromLogout == old(comingFromLogout) && shopWrites == old(shopWrites)
                    && scene == Destination(ShopSession.LoadedShop(prefs), now))
              && (!CacheUsed(prefs, currentUser, old(comingFromLogout)) ==> !comingFromLogout)
              && (currentUser.None? ==> scene == LoginScene && editFlag == old(editFlag))
              && (currentUser.Some? ==> editFlag == (scene == ShopSettingScene)))
      ensures var prefs := old(session.prefs);
        !threw && currentUser.Some? && !CacheUsed(prefs, currentUser, old(comingFromLogout)) ==>
          session.cachedUserId == currentUser
          && session.cachedShop == Some(LoadedShop(stored, now, globalConfig))
          && scene == Destination(LoadedShop(stored, now, globalConfig), now)
          && session.prefs == ShopSession.Saved(prefs, currentUser, LoadedShop(stored, now, globalConfig))
          && shopWrites == old(shopWrites)
                           + (if stored.None? then [(currentUser.value, DefaultShop(now, globalConfig))] else [])
      ensures var prefs := old(session.prefs);
        threw || currentUser.None? || CacheUsed(prefs, currentUser, old(comingFromLogout)) ==>
          session.prefs == prefs
          && (ShopSession.CachedUserId in prefs ==>
                session.cachedUserId == Some(ShopSession.GetString(prefs, ShopSession.CachedUserId, ""))
                && session.cachedShop == Some(ShopSession.LoadedShop(prefs)))
          && (ShopSession.CachedUserId !in prefs ==>
                session.cachedUserId == old(session.cachedUserId) && session.cachedShop == old(session.cachedShop))
      ensures session.packageConfig == old(session.packageConfig) && session.globalConfig == old(session.globalConfig)
    {
      var loaded := session.LoadFromPlayerPrefs();
      if loaded.Err? {
        return true;
      }
      threw := false;
      user := currentUser;
      if user.Some? && loaded == Ok(true) && session.cachedUserId == user && !comingFromLogout {
        PerformInitialRedirection(session.cachedShop.value, now);
      } else {
        comingFromLogout := false;
        if user.Some? {
          LoadAndCacheShopData(session, user.value, stored, now);
          PerformInitialRedirection(session.cachedShop.value, now);
        } else {
          scene := LoginScene;
        }
      }
    }

    /** AuthStateChanged: a sign-out (a user before, none now) clears the
        session and marks the logout. */
    method AuthStateChanged(session: ShopSession.Session, current: Option<string>)
      modifies session, this`user, this`comingFromLogout, this`scene
      ensures user == current
      ensures old(user).Some? && current.None? ==>
                comingFromLogout && scene == LoginScene
                && session.cachedUserId == None && session.cachedShop == None && session.globalConfig == None
                && session.prefs == old(session.prefs) - ShopSession.SessionKeys
      ensures !(old(user).Some? && current.None?) ==>
                comingFromLogout == old(comingFromLogout) && scene == old(scene)
                && session.prefs == old(session.prefs) && session.cachedShop == old(session.cachedShop)
                && session.cachedUserId == old(session.cachedUserId) && session.globalConfig == old(session.globalConfig)
      ensures session.packageConfig == old(session.packageConfig)
    {
      if current != user {
        if user.Some? && current.None? {
          session.ClearAllData();
          comingFromLogout := true;
          scene := LoginScene;
        }
        user := current;
      }
    }

    /** SignOutAndReturnToLogin: with or without a user the session is
        cleared, the logout marked and the login scene loaded. */
    method SignOutAndReturnToLogin(session: ShopSession.Session)
      modifies session, this`user, this`comingFromLogout, this`scene
      ensures user == None && comingFromLogout && scene == LoginScene
      ensures session.cachedUserId == None && session.cachedShop == None && session.globalConfig == None
      ensures session.prefs == old(session.prefs) - ShopSession.SessionKeys
      ensures session.packageConfig == old(session.packageConfig)
    {
      session.ClearAllData();
      user := None;
      comingFromLogout := true;
      scene := LoginScene;
    }
  }

  /** A start-up or sign-in that loads the shop from Firestore never
      sends a user with a stored, named shop whose license end is MinValue
      to the license screen: the repaired license runs for two more weeks. */
  lemma RepairedLicenseReachesHome(d: ShopData, now: Timestamp, config: Option<GlobalAppConfig>)
    requires !IsNullOrEmpty(d.shopName)
    requires d.licenseEndDate == MinTimestamp
    ensures Destination(LoadedShop(Some(d), now, config), now) == HomepageScene
  {
    var l := LoadedShop(Some(d), now, config);
    assert l.licenseEndDate == AddDays(now, RepairedLicenseDays);
  }

  /** A stored, named shop whose document has no license end reads it as
      the epoch, which is not repaired: once the epoch is past, the user is
      sent to the license screen. */
  lemma MissingLicenseGoesToSettings(d: ShopData, now: Timestamp, config: Option<GlobalAppConfig>)
    requires !IsNullOrEmpty(d.shopName)
    requires d.licenseEndDate == Epoch && Before(Epoch, now)
    ensures LoadedShop(Some(d), now, config).licenseEndDate == Epoch
    ensures Destination(LoadedShop(Some(d), now, config), now) == ShopSettingScene
  {
    assert Epoch != MinTimestamp;
  }
}
