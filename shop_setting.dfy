// ShopSettingManager: the license screen. A voucher code, looked up in the
// `vouchers` collection, extends the shop's license by its number of days
// from the later of the current end date and now, may switch the package,
// and is marked used (once for everybody, or once per shop). The homepage
// button is shown only while the license runs. Firestore reads are
// parameters (the voucher document, whether this shop already used it,
// whether the batch commits), the batch is kept as a log of writes, and the
// clock is the parameter `now`.
module ShopSetting {
  import opened Wrappers
  import opened DotNetText
  import opened ShopRecords
  import ShopSession

  const SingleUse: string := "SINGLE_USE"
  const MultipleUse: string := "MULTIPLE_USE"

  /** What DocumentSnapshot.GetValue<T> finds under one field: `Missing`
      when it throws, because the field is absent or holds what T cannot
      take (null for a number or a boolean, or a value of another type). */
  datatype Field<T> = Missing | Has(value: T)

  /** A voucher document as stored: the fields the handler reads. */
  datatype VoucherDoc = VoucherDoc(durationDays: Field<int>, usageType: Field<Option<string>>,
                                   packageName: Field<Option<string>>, isUsed: Field<bool>)

  /** The fields of a voucher once the handler has read them. */
  datatype Voucher = Voucher(durationDays: int, usageType: Option<string>, packageName: Option<string>,
                             isUsed: bool)

  /** The reads of ShopSettingManager.cs:426-432: the duration, the usage
      type and the package name, then isUsed for a single-use voucher only;
      None when one of them throws. */
  function ReadVoucher(doc: VoucherDoc): Option<Voucher>
  {
    if doc.durationDays.Missing? || doc.usageType.Missing? || doc.packageName.Missing? then None
    else if doc.usageType.value == Some(SingleUse) && doc.isUsed.Missing? then None
    else Some(Voucher(doc.durationDays.value, doc.usageType.value, doc.packageName.value,
                      doc.isUsed.Has? && doc.isUsed.value))
  }

  /** Why a voucher click changes nothing, in the handler's order.
      `FieldUnreadable` and `EndDateOutOfRange` are exceptions the handler
      catches and reports in its error popup. */
  datatype VoucherRejection =
    | NoSession
    | EmptyCode
    | NotFound
    | FieldUnreadable
    | UsedByOther
    | UsedByThisShop
    | UnknownUsage
    | BadDuration
    | EndDateOutOfRange

  /** The later of two timestamps. */
  function Later(a: Timestamp, b: Timestamp): (r: Timestamp)
    ensures !Before(r, a) && !Before(r, b) && (r == a || r == b)
  {
    if Before(a, b) then b else a
  }

  /** The date an extension counts from: the current end date, but never
      earlier than now. (The handler's fallback to now for a null end date
      cannot happen: the end date is a struct.) */
  function ExtensionBase(end: Timestamp, now: Timestamp): (r: Timestamp)
    ensures !Before(r, now) && !Before(r, end)
    ensures r == now || r == end
  {
    Later(end, now)
  }

  function NewLicenseEnd(end: Timestamp, days: int, now: Timestamp): Timestamp
  {
    AddDays(ExtensionBase(end, now), days)
  }

  /** A license never loses time: the new end is `days` days after now,
      or `days` days after the old end when that is later, and so at
      least that far after both. */
  lemma NewLicenseEndSpec(end: Timestamp, days: int, now: Timestamp)
    ensures var r := NewLicenseEnd(end, days, now);
      !Before(r, AddDays(now, days)) && !Before(r, AddDays(end, days))
      && (r == AddDays(now, days) || (!Before(end, now) && r == AddDays(end, days)))
  {
  }

  /** The checks after the lookup: the voucher exists, its fields can be
      read, its usage type is known and not used up, and only then its
      duration is positive. */
  function Judge(doc: Option<VoucherDoc>, usedByThisShop: bool): Option<VoucherRejection>
  {
    if doc.None? then Some(NotFound)
    else match ReadVoucher(doc.value)
      case None => Some(FieldUnreadable)
      case Some(v) =>
        if v.usageType == Some(SingleUse) then
          if v.isUsed then Some(UsedByOther)
          else if v.durationDays <= 0 then Some(BadDuration)
          else None
        else if v.usageType == Some(MultipleUse) then
          if usedByThisShop then Some(UsedByThisShop)
          else if v.durationDays <= 0 then Some(BadDuration)
          else None
        else Some(UnknownUsage)
  }

  /** A voucher is accepted exactly when its document exists with a
      positive duration and a package name, and it is a single-use one
      stored as not used or a multi-use one this shop has not used; a
      field GetValue cannot read is reported before anything else, and a
      bad usage before a bad duration. */
  lemma JudgeSpec(doc: Option<VoucherDoc>, usedByThisShop: bool)
    ensures var r := Judge(doc, usedByThisShop);
      (r.None? <==>
         doc.Some? && doc.value.durationDays.Has? && doc.value.durationDays.value > 0
         && doc.value.packageName.Has?
         && ((doc.value.usageType == Has(Some(SingleUse)) && doc.value.isUsed == Has(false))
             || (doc.value.usageType == Has(Some(MultipleUse)) && !usedByThisShop)))
      && (r == Some(NotFound) <==> doc.None?)
      && (r == Some(FieldUnreadable) <==>
            doc.Some? && (doc.value.durationDays.Missing? || doc.value.usageType.Missing?
                          || doc.value.packageName.Missing?
                          || (doc.value.usageType == Has(Some(SingleUse)) && doc.value.isUsed.Missing?)))
      && (r == Some(UnknownUsage) <==>
            doc.Some? && doc.value.durationDays.Has? && doc.value.packageName.Has? && doc.value.usageType.Has?
            && doc.value.usageType.value != Some(SingleUse) && doc.value.usageType.value != Some(MultipleUse))
      && (r == Some(BadDuration) ==>
            doc.value.durationDays.value <= 0
            && ((doc.value.usageType == Has(Some(SingleUse)) && doc.value.isUsed == Has(false))
                || (doc.value.usageType == Has(Some(MultipleUse)) && !usedByThisShop)))
  {
  }

  /** Everything that decides a click once the code is known: Judge, then
      the new end date, which DateTime.AddDays refuses past the year 9999. */
  function Verdict(doc: Option<VoucherDoc>, usedByThisShop: bool, d: ShopData, now: Timestamp)
    : (r: Option<VoucherRejection>)
    ensures r.None? ==> doc.Some? && ReadVoucher(doc.value).Some? && ReadVoucher(doc.value).value.durationDays > 0
  {
    match Judge(doc, usedByThisShop)
    case Some(reason) => Some(reason)
    case None =>
      if InDateTimeRange(NewLicenseEnd(d.licenseEndDate, ReadVoucher(doc.value).value.durationDays, now)) then None
      else Some(EndDateOutOfRange)
  }

  /** A voucher Judge accepts is still refused, with nothing changed, when
      the extension would end after the year 9999, and only then; every
      other verdict is Judge's. */
  lemma VerdictSpec(doc: Option<VoucherDoc>, usedByThisShop: bool, d: ShopData, now: Timestamp)
    requires InDateTimeRange(now)
    ensures var r := Verdict(doc, usedByThisShop, d, now);
      (Judge(doc, usedByThisShop).Some? ==> r == Judge(doc, usedByThisShop))
      && (Judge(doc, usedByThisShop).None? ==>
            var days := doc.value.durationDays.value;
            (r == Some(EndDateOutOfRange) <==> NewLicenseEnd(d.licenseEndDate, days, now).seconds > MaxSeconds)
            && (r.None? <==> NewLicenseEnd(d.licenseEndDate, days, now).seconds <= MaxSeconds))
  {
    if Judge(doc, usedByThisShop).None? {
      JudgeSpec(doc, usedByThisShop);
      var days := doc.value.durationDays.value;
      assert ReadVoucher(doc.value).value.durationDays == days > 0;
      assert ExtensionBase(d.licenseEndDate, now).seconds >= now.seconds;
    }
  }

  /** The cached shop after an accepted voucher. */
  function Extended(d: ShopData, v: Voucher, now: Timestamp): ShopData
  {
    d.(licenseEndDate := NewLicenseEnd(d.licenseEndDate, v.durationDays, now),
       packageType := if IsNullOrEmpty(v.packageName) then d.packageType else v.packageName)
  }

  /** The writes of the voucher batch. */
  datatype VoucherWrite =
    | ShopLicense(end: Timestamp)
    | ShopPackage(name: string)
    | MarkUsed(code: string, userId: string, at: Timestamp)
    | RecordUse(userId: string, code: string, at: Timestamp, days: int, usageType: string, packageName: string)

  function Batch(code: string, userId: string, v: Voucher, extended: ShopData, now: Timestamp): seq<VoucherWrite>
  {
    [ShopLicense(extended.licenseEndDate)]
    + (if IsNullOrEmpty(v.packageName) then [] else [ShopPackage(v.packageName.value)])
    + (if v.usageType == Some(SingleUse) then [MarkUsed(code, userId, now)]
       else [RecordUse(userId, code, now, v.durationDays, MultipleUse, OrEmpty(v.packageName))])
  }

  /** CheckLicenseAndSetHomepageButtonState: the button shows only for a
      cached shop whose license end is not before now. */
  predicate HomepageVisible(d: Option<ShopData>, now: Timestamp)
  {
    d.Some? && !Before(d.value.licenseEndDate, now)
  }

  /** An accepted voucher changes only the license end and, when it names
      one, the package, and it opens the homepage. */
  lemma ExtendedSpec(d: ShopData, v: Voucher, now: Timestamp)
    requires v.durationDays > 0
    ensures var e := Extended(d, v, now);
      HomepageVisible(Some(e), now)
      && !Before(e.licenseEndDate, AddDays(now, v.durationDays))
      && (v.packageName.Some? && v.packageName.value != "" ==> e.packageType == v.packageName)
      && (IsNullOrEmpty(v.packageName) ==> e.packageType == d.packageType)
      && e.(licenseEndDate := d.licenseEndDate, packageType := d.packageType) == d
  {
    NewLicenseEndSpec(d.licenseEndDate, v.durationDays, now);
  }

  /** The batch always moves the license end, writes the package only
      when the voucher names one, and uses the voucher up in the way its
      type says. */
  lemma BatchSpec(code: string, userId: string, v: Voucher, d: ShopData, now: Timestamp)
    ensures var e := Extended(d, v, now);
      var b := Batch(code, userId, v, e, now);
      b[0] == ShopLicense(e.licenseEndDate)
      && (ShopPackage(OrEmpty(v.packageName)) in b <==> !IsNullOrEmpty(v.packageName))
      && (v.usageType == Some(SingleUse) <==> MarkUsed(code, userId, now) in b)
      && |b| == 2 + (if IsNullOrEmpty(v.packageName) then 0 else 1)
  {
  }

  datatype VoucherOutcome = Rejected(reason: VoucherRejection) | Applied(days: int) | CommitFailed

  class ShopSettingManager {
    /** currentUser's id, if signed in; shopDocRef is set with it. */
    var userId: Option<string>
    var shopDocSet: bool
    /** _cachedShopData. */
    var cached: Option<ShopData>
    /** Whether _cachedShopData is the very object ShopSessionData's
        CachedShopSettings refers to, as LoadShopDataFromFirebase leaves it
        (taken from the session, or handed to SetCachedShopSettings). */
    var sharesSessionShop: bool
    var voucherText: string
    var homepageVisible: bool
    var loadingActive: bool
    var applyInteractable: bool
    var inputInteractable: bool
    /** The batches committed to Firestore, in order. */
    var committed: seq<seq<VoucherWrite>>

    constructor(userId: Option<string>, cached: Option<ShopData>, sharesSessionShop: bool)
      ensures this.userId == userId && this.cached == cached && shopDocSet == userId.Some?
      ensures this.sharesSessionShop == sharesSessionShop
      ensures committed == [] && applyInteractable && inputInteractable && !loadingActive
    {
      this.userId := userId;
      shopDocSet := userId.Some?;
      this.cached := cached;
      this.sharesSessionShop := sharesSessionShop;
      voucherText := "";
      homepageVisible := false;
      loadingActive := false;
      applyInteractable := true;
      inputInteractable := true;
      committed := [];
    }

    method CheckLicenseAndSetHomepageButtonState(now: Timestamp)
      modifies this`homepageVisible
      ensures homepageVisible == HomepageVisible(cached, now)
    {
      if cached.Some? {
        homepageVisible := !Before(cached.value.licenseEndDate, now);
      } else {
        homepageVisible := false;
      }
    }

    /** OnApplyVoucherButtonClicked. The cached shop is updated in place
        before the batch is committed, so a failed commit leaves it
        extended, and with it the session's shop when that is the same
        object, while Firestore and the stored session keep the old
        license. */
    method OnApplyVoucherButtonClicked(session: ShopSession.Session, voucher: Option<VoucherDoc>,
                                       usedByThisShop: bool, commitOk: bool, now: Timestamp)
      returns (outcome: VoucherOutcome)
      modifies this`cached, this`committed, this`voucherText, this`homepageVisible
      modifies this`loadingActive, this`applyInteractable, this`inputInteractable
      modifies session
      ensures outcome == Rejected(NoSession) <==> old(userId.None? || !shopDocSet || cached.None?)
      ensures outcome == Rejected(EmptyCode) <==> old(userId.Some? && shopDocSet && cached.Some? && Trim(voucherText) == "")
      ensures var code := Trim(old(voucherText));
        (userId.Some? && shopDocSet && old(cached).Some? && code != "" ==>
              match Verdict(voucher, usedByThisShop, old(cached).value, now)
              case Some(reason) => outcome == Rejected(reason)
              case None =>
                var v := ReadVoucher(voucher.value).value;
                cached == Some(Extended(old(cached).value, v, now))
                && (commitOk ==>
                      outcome == Applied(v.durationDays)
                      && committed == old(committed) + [Batch(code, userId.value, v, cached.value, now)]
                      && session.cachedUserId == userId && session.cachedShop == cached
                      && session.prefs == ShopSession.Saved(old(session.prefs), userId, cached.value)
                      && voucherText == "" && homepageVisible == HomepageVisible(cached, now))
                && (!commitOk ==>
                      outcome == CommitFailed && committed == old(committed)
                      && session.cachedUserId == old(session.cachedUserId)
                      && session.cachedShop == if sharesSessionShop then cached else old(session.cachedShop)))
      ensures outcome.Rejected? ==> cached == old(cached) && committed == old(committed)
      ensures outcome.Rejected? ==> session.cachedShop == old(session.cachedShop)
      ensures !outcome.Applied? ==>
                voucherText == old(voucherText) && homepageVisible == old(homepageVisible)
                && session.prefs == old(session.prefs)
      ensures outcome.Rejected? && (outcome.reason.NoSession? || outcome.reason.EmptyCode?) ==>
                applyInteractable == old(applyInteractable) && inputInteractable == old(inputInteractable)
      ensures !(outcome.Rejected? && (outcome.reason.NoSession? || outcome.reason.EmptyCode?)) ==>
                applyInteractable && inputInteractable && !loadingActive
    {
      if userId.None? || !shopDocSet || cached.None? {
        return Rejected(NoSession);
      }
      var code := Trim(voucherText);
      if code == "" {
        return Rejected(EmptyCode);
      }
      loadingActive, applyInteractable, inputInteractable := true, false, false;
      outcome := RedeemVoucher(session, code, voucher, usedByThisShop, commitOk, now);
      loadingActive, applyInteractable, inputInteractable := false, true, true;
    }

    /** The part of the handler between the loading indicator going on and
        off: the lookup's verdict, then the batch and, once it commits, the
        session, the input and the homepage button. */
    method RedeemVoucher(session: ShopSession.Session, code: string, voucher: Option<VoucherDoc>,
                         usedByThisShop: bool, commitOk: bool, now: Timestamp)
      returns (outcome: VoucherOutcome)
      requires userId.Some? && cached.Some?
      modifies this`cached, this`committed, this`voucherText, this`homepageVisible, session
      ensures match Verdict(voucher, usedByThisShop, old(cached).value, now)
        case Some(reason) => outcome == Rejected(reason) && cached == old(cached) && committed == old(committed)
        case None =>
          var v := ReadVoucher(voucher.value).value;
          cached == Some(Extended(old(cached).value, v, now))
          && (commitOk ==>
                outcome == Applied(v.durationDays)
                && committed == old(committed) + [Batch(code, userId.value, v, cached.value, now)]
                && session.cachedUserId == userId && session.cachedShop == cached
                && session.prefs == ShopSession.Saved(old(session.prefs), userId, cached.value)
                && voucherText == "" && homepageVisible == HomepageVisible(cached, now))
          && (!commitOk ==>
                outcome == CommitFailed && committed == old(committed)
                && session.cachedUserId == old(session.cachedUserId)
                && session.cachedShop == if sharesSessionShop then cached else old(session.cachedShop))
      ensures outcome.Rejected? ==> session.cachedShop == old(session.cachedShop)
      ensures outcome != Rejected(NoSession) && outcome != Rejected(EmptyCode)
      ensures !outcome.Applied? ==>
                voucherText == old(voucherText) && homepageVisible == old(homepageVisible)
                && session.prefs == old(session.prefs)
    {
      var rejection := Verdict(voucher, usedByThisShop, cached.value, now);
      if rejection.Some? {
        outcome := Rejected(rejection.value);
      } else {
        var v := ReadVoucher(voucher.value).value;
        cached := Some(Extended(cached.value, v, now));
        if sharesSessionShop {
          session.cachedShop := cached;
        }
        if commitOk {
          committed := committed + [Batch(code, userId.value, v, cached.value, now)];
          session.SetCachedShopSettings(userId, cached.value);
          voucherText := "";
          CheckLicenseAndSetHomepageButtonState(now);
          outcome := Applied(v.durationDays);
        } else {
          outcome := CommitFailed;
        }
      }
    }

    /** RedeemVoucher as evidently intended: the extended shop is built
        aside and cached only once the batch has committed, so a failed
        commit leaves the cached and the session's shop as they were. */
    method RedeemVoucherCommittingFirst(session: ShopSession.Session, code: string, voucher: Option<VoucherDoc>,
                                        usedByThisShop: bool, commitOk: bool, now: Timestamp)
      returns (outcome: VoucherOutcome)
      requires userId.Some? && cached.Some?
      modifies this`cached, this`committed, this`voucherText, this`homepageVisible, session
      ensures match Verdict(voucher, usedByThisShop, old(cached).value, now)
        case Some(reason) => outcome == Rejected(reason)
        case None =>
          var v := ReadVoucher(voucher.value).value;
          (commitOk ==>
             outcome == Applied(v.durationDays)
             && cached == Some(Extended(old(cached).value, v, now))
             && committed == old(committed) + [Batch(code, userId.value, v, cached.value, now)]
             && session.cachedUserId == userId && session.cachedShop == cached
             && session.prefs == ShopSession.Saved(old(session.prefs), userId, cached.value)
             && voucherText == "" && homepageVisible == HomepageVisible(cached, now))
          && (!commitOk ==> outcome == CommitFailed)
      ensures !outcome.Applied? ==>
                cached == old(cached) && committed == old(committed)
                && voucherText == old(voucherText) && homepageVisible == old(homepageVisible)
                && session.cachedUserId == old(session.cachedUserId) && session.cachedShop == old(session.cachedShop)
                && session.prefs == old(session.prefs)
    {
      var rejection := Verdict(voucher, usedByThisShop, cached.value, now);
      if rejection.Some? {
        outcome := Rejected(rejection.value);
      } else {
        var v := ReadVoucher(voucher.value).value;
        var extended := Extended(cached.value, v, now);
        if commitOk {
          cached := Some(extended);
          committed := committed + [Batch(code, userId.value, v, extended, now)];
          session.SetCachedShopSettings(userId, extended);
          voucherText := "";
          CheckLicenseAndSetHomepageButtonState(now);
          outcome := Applied(v.durationDays);
        } else {
          outcome := CommitFailed;
        }
      }
    }
  }

  /** An expired shop whose voucher was accepted but whose batch failed to
      commit: Firestore keeps a license that hides the homepage, while the
      extended shop the handler leaves in memory (and in the session, when
      shared) opens it. */
  lemma UncommittedExtensionOpensHomepage(d: ShopData, doc: VoucherDoc, now: Timestamp)
    requires Verdict(Some(doc), false, d, now).None? && Before(d.licenseEndDate, now)
    ensures !HomepageVisible(Some(d), now)
    ensures HomepageVisible(Some(Extended(d, ReadVoucher(doc).value, now)), now)
  {
    ExtendedSpec(d, ReadVoucher(doc).value, now);
  }

  /** After an applied voucher the homepage button is visible. */
  lemma AppliedOpensHomepage(d: ShopData, doc: VoucherDoc, now: Timestamp)
    requires Verdict(Some(doc), false, d, now).None?
    ensures HomepageVisible(Some(Extended(d, ReadVoucher(doc).value, now)), now)
  {
    ExtendedSpec(d, ReadVoucher(doc).value, now);
  }
}
