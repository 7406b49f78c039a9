// The records the application keeps about a shop: ShopData (declared
// inside ShopSettingManager), the Firestore Timestamp its license end date
// is stored as, the AppFeature enumeration and the global configuration
// document read from Firestore.
module ShopRecords {
  import opened Wrappers

  /** A Firestore Timestamp: whole seconds since the Unix epoch and a
      sub-second part, restricted to the years 1 to 9999. */
  datatype Timestamp = Timestamp(seconds: int, nanos: int)

  const MinSeconds: int := -62135596800   // 0001-01-01T00:00:00Z
  const MaxSeconds: int := 253402300799   // 9999-12-31T23:59:59Z

  predicate ValidTimestamp(t: Timestamp)
  {
    MinSeconds <= t.seconds <= MaxSeconds && 0 <= t.nanos < 1_000_000_000
  }

  /** default(Timestamp): the Unix epoch, what a shop document without a
      license end date converts to (the property is a struct, never null). */
  const Epoch: Timestamp := Timestamp(0, 0)

  /** Timestamp.FromDateTime(DateTime.MinValue.ToUniversalTime()). */
  const MinTimestamp: Timestamp := Timestamp(MinSeconds, 0)

  /** `ts.ToDateTimeOffset().ToUnixTimeSeconds()`: the sub-second part is
      dropped. */
  function UnixSeconds(t: Timestamp): int
  {
    t.seconds
  }

  /** Timestamp.FromDateTime(DateTimeOffset.FromUnixTimeSeconds(s).UtcDateTime). */
  function FromUnixSeconds(s: int): (t: Timestamp)
    requires MinSeconds <= s <= MaxSeconds
    ensures ValidTimestamp(t) && UnixSeconds(t) == s
  {
    Timestamp(s, 0)
  }

  /** A timestamp `days` whole days after t (DateTime.AddDays on an
      integral day count). */
  function AddDays(t: Timestamp, days: int): Timestamp
  {
    Timestamp(t.seconds + days * 86400, t.nanos)
  }

  /** A date DateTime can hold, from the year 1 to the end of the year
      9999; DateTime.AddDays throws for a result outside it. */
  predicate InDateTimeRange(t: Timestamp)
  {
    MinSeconds <= t.seconds <= MaxSeconds
  }

  /** Timestamp ordering (CompareTo). */
  predicate Before(a: Timestamp, b: Timestamp)
  {
    a.seconds < b.seconds || (a.seconds == b.seconds && a.nanos < b.nanos)
  }

  /** A null reference of a string property is None; the license end
      date is a Timestamp struct and so always has a value. */
  datatype ShopData = ShopData(
    shopName: Option<string>,
    phoneNumber: Option<string>,
    taxId: Option<string>,
    industry: Option<string>,
    eInvoiceProvider: Option<string>,
    eInvoiceUser: Option<string>,
    eInvoicePass: Option<string>,
    invoiceSerial: Option<string>,
    invoiceForm: Option<string>,
    invoiceType: Option<string>,
    fptAccessToken: Option<string>,
    fptTokenExpiryTime: int,
    licenseEndDate: Timestamp,
    packageType: Option<string>)

  /** `new ShopData()`: every reference null, the expiry time 0 and the
      license end the epoch. */
  const EmptyShop: ShopData :=
    ShopData(None, None, None, None, None, None, None, None, None, None, None, 0, Epoch, None)

  /** The features a package can unlock. */
  datatype AppFeature = NoFeature | Sales | Inventory | Reports | EInvoice | MultiUser

  /** GlobalAppConfigData; only the free-trial length is read by the rules
      modelled here. */
  datatype GlobalAppConfig = GlobalAppConfig(freeTrialDurationDays: int)
}
