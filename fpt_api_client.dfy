// FptEInvoiceApiClient: signing in to the FPT e-invoice service, keeping
// the access token (a JWS in compact serialization, RFC 7515 section 7.1)
// in the shop session, refreshing it with a bounded retry, and turning
// failed HTTP exchanges into the messages shown to the user.
//
// The network, the Firestore write and the clock are inputs: each sign-in
// attempt is given the reachability it sees, the HTTP response it gets and
// whether the Firestore update succeeds. Convert.FromBase64String followed
// by UTF-8 decoding is the parameter `decode`.
module FptApiClient {
  import opened Wrappers
  import opened Json
  import JsonNode
  import JsonLayout
  import JsonRoundTrip
  import DotNetText
  import opened ShopRecords
  import opened ShopSession

  // ---------------------------------------------------------------------
  // User-facing messages

  const CredentialsMissingMsg: string := "Lỗi cấu hình FPT eInvoice trong Shop Settings. Vui lòng cập nhật."
  const SignInUrlMissingMsg: string := "Lỗi cấu hình API Sign-in URL mặc định. Vui lòng kiểm tra FptEInvoiceConfig."
  const OfflineMsg: string := "Không có kết nối Internet. Vui lòng kiểm tra mạng và thử lại."
  const NotJwtMsg: string := "Lỗi: Phản hồi đăng nhập FPT không phải định dạng JWT hợp lệ."
  const PayloadErrorPrefix: string := "Lỗi phân tích hoặc giải mã JWT từ FPT: "
  const PayloadNotObjectMsg: string := "Lỗi: Payload JWT không phải JSON object hoặc thiếu thông tin cần thiết."
  const EmptyTokenMsg: string := "Lỗi: Không nhận được access token hợp lệ từ FPT."
  const ConnectionMsg: string := "Lỗi kết nối mạng đến máy chủ FPT. Vui lòng kiểm tra Internet của bạn."
  const WrongCredentialsMsg: string := "Thông tin đăng nhập FPT eInvoice không chính xác. Vui lòng kiểm tra lại Username/Mật khẩu API trong Cài đặt Shop."
  const ServerTroubleMsg: string := "Máy chủ FPT eInvoice đang gặp sự cố. Vui lòng thử lại sau ít phút."
  const UnexpectedMsg: string := "Đã xảy ra lỗi không mong muốn khi giao tiếp với FPT eInvoice. Vui lòng thử lại."
  const TooManyRequestsMsg: string := "Vượt quá tần suất truy cập FPT. Vui lòng thử lại sau giây lát."
  const NoTokenMsg: string := "Không thể lấy access token để gọi API FPT."

  /** "Lỗi từ FPT eInvoice (Mã: {code}). Chi tiết: {detail}"; a null detail
      interpolates as nothing. */
  function ProtocolErrorMsg(code: int, detail: Option<string>): string
  {
    "Lỗi từ FPT eInvoice (Mã: " + DotNetText.LongToString(code) + "). Chi tiết: " + DotNetText.OrEmpty(detail)
  }

  // ---------------------------------------------------------------------
  // Base64url (RFC 4648 section 5)

  function FromUrlChar(c: char): char
  {
    if c == '-' then '+' else if c == '_' then '/' else c
  }

  function ToUrlChar(c: char): char
  {
    if c == '+' then '-' else if c == '/' then '_' else c
  }

  /** The '=' padding DecodeBase64Url appends for an input of length n. */
  function Padding(n: nat): (p: string)
    ensures |p| <= 2 && forall i :: 0 <= i < |p| ==> p[i] == '='
    ensures n % 4 != 1 ==> (n + |p|) % 4 == 0
    ensures n % 4 == 0 || n % 4 == 1 ==> p == ""
  {
    if n % 4 == 2 then "==" else if n % 4 == 3 then "=" else ""
  }

  /** The standard-alphabet, padded text DecodeBase64Url hands to
      Convert.FromBase64String. */
  function NormalizeBase64Url(s: string): (r: string)
    ensures |r| == |s| + |Padding(|s|)|
    ensures forall i :: 0 <= i < |s| ==> r[i] == FromUrlChar(s[i])
    ensures forall i :: |s| <= i < |r| ==> r[i] == '='
    ensures |s| % 4 != 1 ==> |r| % 4 == 0
    ensures '-' !in r && '_' !in r
  {
    DotNetText.MapChars(FromUrlChar, s) + Padding(|s|)
  }

  /** Padded standard base64 text: a body free of '=', '-' and '_' followed
      by exactly the padding its length calls for. */
  predicate PaddedBase64(body: string, pad: string)
  {
    '=' !in body && '-' !in body && '_' !in body && |body| % 4 != 1 && pad == Padding(|body|)
  }

  /** The base64url form of padded base64 text: the padding dropped and
      '+' and '/' replaced by '-' and '_'. */
  function ToBase64Url(body: string): (u: string)
    ensures |u| == |body|
    ensures '+' !in u && '/' !in u
  {
    DotNetText.MapChars(ToUrlChar, body)
  }

  /** DecodeBase64Url undoes the base64url encoding: normalising the url
      form of padded base64 text gives that text back. */
  lemma NormalizeUrlForm(body: string, pad: string)
    requires PaddedBase64(body, pad)
    ensures NormalizeBase64Url(ToBase64Url(body)) == body + pad
  {
    var u := ToBase64Url(body);
    var r := NormalizeBase64Url(u);
    forall i | 0 <= i < |body|
      ensures r[i] == body[i]
    {
      assert body[i] != '-' && body[i] != '_';
    }
    assert r == body + pad;
  }

  // ---------------------------------------------------------------------
  // The JWS compact form and the exp claim

  /** Splitting at a separator splits each side independently. */
  lemma {:induction false} SplitAround(a: string, b: string, sep: char)
    ensures DotNetText.Split(a + [sep] + b, sep) == DotNetText.Split(a, sep) + DotNetText.Split(b, sep)
  {
    if a != [] {
      assert (a + [sep] + b)[1..] == a[1..] + [sep] + b;
      SplitAround(a[1..], b, sep);
    } else {
      assert a + [sep] + b == [sep] + b;
    }
  }

  /** A piece with no separator splits to itself. */
  lemma {:induction false} SplitPiece(a: string, sep: char)
    requires sep !in a
    ensures DotNetText.Split(a, sep) == [a]
  {
    if a != [] {
      SplitPiece(a[1..], sep);
      assert [a[0]] + a[1..] == a;
    }
  }

  /** header.payload.signature splits into its three parts. */
  lemma CompactParts(header: string, payload: string, signature: string)
    requires '.' !in header && '.' !in payload && '.' !in signature
    ensures DotNetText.Split(header + "." + payload + "." + signature, '.') == [header, payload, signature]
  {
    assert header + "." + payload + "." + signature == header + ['.'] + (payload + ['.'] + signature);
    SplitAround(header, payload + ['.'] + signature, '.');
    SplitAround(payload, signature, '.');
    SplitPiece(header, '.');
    SplitPiece(payload, '.');
    SplitPiece(signature, '.');
  }

  /** `(long)d` on a double: truncation toward zero; a value outside the
      long range yields long.MinValue, as the x64 conversion does. */
  function TruncateToLong(x: real): (v: int)
    ensures DotNetText.InLongRange(v)
    ensures DotNetText.InLongRange(x.Floor) && x == x.Floor as real ==> v == x.Floor
  {
    var t := if x >= 0.0 then x.Floor else -((-x).Floor);
    if DotNetText.InLongRange(t) then t else DotNetText.LongMin
  }

  /** `node.AsLong` of a child read through an indexer: a number is
      converted, anything else goes through long.TryParse of its Value (an
      absent child reads "" and gives 0). */
  function AsLong(child: Option<Json>, fmt: NumberFormat): (v: int)
    ensures DotNetText.InLongRange(v)
    ensures child.None? ==> v == 0
  {
    match child
    case Some(JNumber(x)) => TruncateToLong(x)
    case _ =>
      assert child.None? ==> DotNetText.TryParseLong("") == None;
      DotNetText.ParseLongOrZero(JsonNode.ValueText(child, fmt))
  }

  // ---------------------------------------------------------------------
  // HTTP exchanges

  /** UnityWebRequest.Result once the request is done. */
  datatype RequestResult = Success | ConnectionError | ProtocolError | DataProcessingError

  /** What a finished UnityWebRequest exposes: the result, the status code,
      the downloaded text and the error string (possibly null). */
  datatype HttpResponse = HttpResponse(result: RequestResult, code: int, body: string, error: Option<string>)

  /** errorDetails: the body, or the error string when the body is empty. */
  function ErrorDetails(r: HttpResponse): (d: Option<string>)
    ensures r.body != "" ==> d == Some(r.body)
    ensures r.body == "" ==> d == r.error
  {
    if r.body == "" then r.error else Some(r.body)
  }

  /** `node[key] != null` followed by `.Value`: only an object answers a
      key; there an absent key is a lazy node, which compares unequal to
      null and reads "", while a member holding JSON null compares equal to
      null and is skipped. */
  predicate KeyNotNull(j: Json, key: string)
  {
    j.JObject? && (var c := JsonNode.Lookup(j.members, key); c.None? || !c.value.JNull?)
  }

  function KeyText(j: Json, key: string, fmt: NumberFormat): string
    requires j.JObject?
  {
    JsonNode.ValueText(JsonNode.Lookup(j.members, key), fmt)
  }

  /** The detail of a protocol error: the parsed body's Value, else its
      "message" member, else its "error" member; the raw details when the
      body does not parse or is JSON null; null when the details are null
      (JSON.Parse throws and the details stay null). */
  function ErrorDetail(details: Option<string>, fmt: NumberFormat): (d: Option<string>)
    ensures details.None? ==> d.None?
    ensures details.Some? ==> d.Some?
    ensures details.Some? && Parse(details.value, fmt).Err? ==> d == details
  {
    match details
    case None => None
    case Some(text) =>
      match Parse(text, fmt)
      case Err(_) => details
      case Ok(j) =>
        if j.JNull? then details
        else
          var v0 := JsonNode.ValueText(Some(j), fmt);
          var v1 := if v0 == "" && KeyNotNull(j, "message") then KeyText(j, "message", fmt) else v0;
          var v2 := if v1 == "" && KeyNotNull(j, "error") then KeyText(j, "error", fmt) else v1;
          Some(v2)
  }

  /** The popup for a failed exchange; `tooMany` is what a 429 shows (no
      popup during sign-in). */
  function FailureMessage(r: HttpResponse, tooMany: Option<string>, fmt: NumberFormat): (m: Option<string>)
    ensures r.code == 429 ==> m == tooMany
    ensures r.code != 429 ==> m.Some?
  {
    if r.code == 429 then tooMany
    else if r.result == ConnectionError then Some(ConnectionMsg)
    else if r.result == ProtocolError then
      if r.code == 401 then Some(WrongCredentialsMsg)
      else if 500 <= r.code < 600 then Some(ServerTroubleMsg)
      else Some(ProtocolErrorMsg(r.code, ErrorDetail(ErrorDetails(r), fmt)))
    else Some(UnexpectedMsg)
  }

  /** The classification of failures: 429 first, then connection errors,
      then protocol errors by status (401, 5xx, others with the body's
      detail), then everything else. */
  lemma FailureClassification(r: HttpResponse, tooMany: Option<string>, fmt: NumberFormat)
    requires r.result != Success
    ensures FailureMessage(r, tooMany, fmt) ==
      if r.code == 429 then tooMany
      else if r.result == ConnectionError then Some(ConnectionMsg)
      else if r.result == ProtocolError && r.code == 401 then Some(WrongCredentialsMsg)
      else if r.result == ProtocolError && 500 <= r.code < 600 then Some(ServerTroubleMsg)
      else if r.result == ProtocolError then Some(ProtocolErrorMsg(r.code, ErrorDetail(ErrorDetails(r), fmt)))
      else Some(UnexpectedMsg)
  {
  }

  /** A body that parses to an object whose "message" member is a
      non-empty string shows that string. */
  lemma MessageMemberDetail(text: string, members: seq<Member>, m: string, fmt: NumberFormat)
    requires Parse(text, fmt) == Ok(JObject(members))
    requires JsonNode.Lookup(members, "message") == Some(JString(m)) && m != ""
    ensures ErrorDetail(Some(text), fmt) == Some(m)
  {
  }

  /** Without a "message" key the absent member reads as the empty string,
      so a non-empty "error" string member is shown instead. */
  lemma ErrorMemberDetail(text: string, members: seq<Member>, e: string, fmt: NumberFormat)
    requires Parse(text, fmt) == Ok(JObject(members))
    requires "message" !in Keys(members)
    requires JsonNode.Lookup(members, "error") == Some(JString(e)) && e != ""
    ensures ErrorDetail(Some(text), fmt) == Some(e)
  {
    JsonNode.AbsentReadIsEmpty(members, "message", fmt);
  }

  /** An error body {"message": m} printed by the JSON writer shows m. */
  lemma MessageBodyDetail(m: string, mode: Mode, fmt: NumberFormat)
    requires m != ""
    ensures ErrorDetail(Some(Save(JObject([Member("message", JString(m))]), mode, fmt)), fmt) == Some(m)
  {
    var ms := [Member("message", JString(m))];
    assert JsonLayout.MembersReparsable(ms[1..], [] + ["message"], fmt);
    assert JsonLayout.Reparsable(JObject(ms), fmt);
    JsonRoundTrip.ParseSave(JObject(ms), mode, fmt);
    MessageMemberDetail(Save(JObject(ms), mode, fmt), ms, m, fmt);
  }

  /** An error body {"error": e} printed by the JSON writer shows e. */
  lemma ErrorBodyDetail(e: string, mode: Mode, fmt: NumberFormat)
    requires e != ""
    ensures ErrorDetail(Some(Save(JObject([Member("error", JString(e))]), mode, fmt)), fmt) == Some(e)
  {
    var ms := [Member("error", JString(e))];
    assert JsonLayout.MembersReparsable(ms[1..], [] + ["error"], fmt);
    assert JsonLayout.Reparsable(JObject(ms), fmt);
    JsonRoundTrip.ParseSave(JObject(ms), mode, fmt);
    assert Keys(ms) == ["error"];
    ErrorMemberDetail(Save(JObject(ms), mode, fmt), ms, e, fmt);
  }

  // ---------------------------------------------------------------------
  // Sign-in

  /** The environment one sign-in attempt sees. */
  datatype Attempt = Attempt(online: bool, response: HttpResponse, firestoreOk: bool)

  datatype SignInOutcome =
    | MissingCredentials
    | MissingSignInUrl
    | Offline
    | NotJwt
    | PayloadUnreadable(reason: string)     // decoding or parsing threw
    | PayloadNotObject
    | EmptyToken
    | SignedIn(token: string, exp: int)
    | HttpFailed(popup: Option<string>)

  /** The popup a sign-in outcome shows. */
  function Popup(o: SignInOutcome): Option<string>
  {
    match o
    case MissingCredentials => Some(CredentialsMissingMsg)
    case MissingSignInUrl => Some(SignInUrlMissingMsg)
    case Offline => Some(OfflineMsg)
    case NotJwt => Some(NotJwtMsg)
    case PayloadUnreadable(reason) => Some(PayloadErrorPrefix + reason)
    case PayloadNotObject => Some(PayloadNotObjectMsg)
    case EmptyToken => Some(EmptyTokenMsg)
    case SignedIn(_, _) => None
    case HttpFailed(p) => p
  }

  /** How a successful response body is accepted: three dot-separated
      parts whose middle one decodes to a JSON object; the whole body is the
      token and the object's "exp" claim its expiry. */
  function TokenOutcome(body: string, decode: string -> Result<string>, fmt: NumberFormat): (o: SignInOutcome)
  {
    var parts := DotNetText.Split(body, '.');
    if |parts| != 3 then NotJwt
    else
      match decode(NormalizeBase64Url(parts[1]))
      case Err(e) => PayloadUnreadable(e)
      case Ok(text) =>
        match Parse(text, fmt)
        case Err(e) => PayloadUnreadable(e)
        case Ok(j) =>
          if !j.JObject? then PayloadNotObject
          else
            var exp := AsLong(JsonNode.Lookup(j.members, "exp"), fmt);
            if body == "" then EmptyToken else SignedIn(body, exp)
  }

  /** The payload object a body carries, when it has one. */
  function PayloadObject(body: string, decode: string -> Result<string>, fmt: NumberFormat): Option<seq<Member>>
  {
    var parts := DotNetText.Split(body, '.');
    if |parts| != 3 then None
    else
      match decode(NormalizeBase64Url(parts[1]))
      case Err(_) => None
      case Ok(text) =>
        match Parse(text, fmt)
        case Err(_) => None
        case Ok(j) => if j.JObject? then Some(j.members) else None
  }

  /** A body is accepted exactly when it carries a payload object; the
      token is then the whole body and the expiry its "exp" claim, and the
      empty-token branch can never be taken. */
  lemma TokenAccepted(body: string, decode: string -> Result<string>, fmt: NumberFormat)
    ensures TokenOutcome(body, decode, fmt).SignedIn? <==> PayloadObject(body, decode, fmt).Some?
    ensures TokenOutcome(body, decode, fmt).SignedIn? ==>
      TokenOutcome(body, decode, fmt) ==
        SignedIn(body, AsLong(JsonNode.Lookup(PayloadObject(body, decode, fmt).value, "exp"), fmt))
    ensures TokenOutcome(body, decode, fmt) != EmptyToken
  {
    assert |DotNetText.Split(body, '.')| == 3 ==> body != "";
  }

  /** A compact JWS whose payload decodes to an object with a whole-number
      "exp" claim (a NumericDate, RFC 7519 section 4.1.4) is accepted with
      that expiry. */
  lemma CompactTokenAccepted(header: string, payload: string, signature: string,
                             decode: string -> Result<string>, fmt: NumberFormat,
                             claims: seq<Member>, exp: int)
    requires '.' !in header && '.' !in payload && '.' !in signature
    requires decode(NormalizeBase64Url(payload)).Ok?
    requires Parse(decode(NormalizeBase64Url(payload)).value, fmt) == Ok(JObject(claims))
    requires JsonNode.Lookup(claims, "exp") == Some(JNumber(exp as real))
    requires DotNetText.InLongRange(exp)
    ensures var token := header + "." + payload + "." + signature;
      TokenOutcome(token, decode, fmt) == SignedIn(token, exp)
  {
    var token := header + "." + payload + "." + signature;
    CompactParts(header, payload, signature);
    assert DotNetText.Split(token, '.')[1] == payload;
    assert token != "";
    assert (exp as real).Floor == exp;
  }

  /** The outcome of SignInAsync for the cached shop and the configured
      sign-in URL. */
  function SignInOutcomeOf(shop: Option<ShopData>, url: Option<string>, a: Attempt,
                           decode: string -> Result<string>, fmt: NumberFormat): SignInOutcome
  {
    if shop.None? || DotNetText.IsNullOrEmpty(shop.value.eInvoiceUser)
       || DotNetText.IsNullOrEmpty(shop.value.eInvoicePass) then MissingCredentials
    else if DotNetText.IsNullOrEmpty(url) then MissingSignInUrl
    else if !a.online then Offline
    else if a.response.result == Success then TokenOutcome(a.response.body, decode, fmt)
    else HttpFailed(FailureMessage(a.response, None, fmt))
  }

  /** Missing credentials or an empty sign-in URL fail before any request,
      and so does being offline; only a successful response signs in. */
  lemma SignInGuards(shop: Option<ShopData>, url: Option<string>, a: Attempt,
                     decode: string -> Result<string>, fmt: NumberFormat)
    ensures var o := SignInOutcomeOf(shop, url, a, decode, fmt);
      (o == MissingCredentials <==>
         shop.None? || DotNetText.IsNullOrEmpty(shop.value.eInvoiceUser)
         || DotNetText.IsNullOrEmpty(shop.value.eInvoicePass))
      && (o.SignedIn? ==> a.online && a.response.result == Success && o.token == a.response.body
                          && !DotNetText.IsNullOrEmpty(url))
      && (a.response.result != Success && a.response.code == 429 && o.HttpFailed? ==> Popup(o).None?)
  {
    TokenAccepted(a.response.body, decode, fmt);
  }

  // ---------------------------------------------------------------------
  // The session cache the client writes

  /** The part of the session the client changes. */
  datatype Cache = Cache(userId: Option<string>, shop: Option<ShopData>, prefs: Prefs)

  function CacheOf(s: Session): Cache
    reads s
  {
    Cache(s.cachedUserId, s.cachedShop, s.prefs)
  }

  function WithToken(d: ShopData, token: string, exp: int): ShopData
  {
    d.(fptAccessToken := Some(token), fptTokenExpiryTime := exp)
  }

  /** The cache after a successful sign-in: the shop carries the new token;
      when a user is signed in and the Firestore update succeeds the session
      is also re-cached and written to PlayerPrefs. */
  function StoreToken(c: Cache, shop: ShopData, user: Option<string>, firestoreOk: bool,
                      token: string, exp: int): (r: Cache)
  {
    var d := WithToken(shop, token, exp);
    if user.Some? && firestoreOk then Cache(user, Some(d), Saved(c.prefs, user, d))
    else c.(shop := Some(d))
  }

  /** A stored token survives a restart: the next load gives back the
      token and its expiry. */
  lemma StoredTokenReloads(c: Cache, shop: ShopData, user: string, token: string, exp: int)
    requires DotNetText.InLongRange(exp)
    ensures var r := StoreToken(c, shop, Some(user), true, token, exp);
      r.userId == Some(user) && r.shop.Some?
      && LoadedShop(r.prefs).fptAccessToken == Some(token)
      && LoadedShop(r.prefs).fptTokenExpiryTime == exp
  {
    var d := WithToken(shop, token, exp);
    SaveLoadStrings(c.prefs, Some(user), d);
    SaveLoadExpiry(c.prefs, Some(user), d);
  }

  /** The cached token is used without signing in iff it is non-empty and
      expires more than an hour after now (Unix seconds). */
  predicate TokenIsFresh(token: Option<string>, expiry: int, now: int)
  {
    !DotNetText.IsNullOrEmpty(token) && expiry > now + 3600
  }

  // ---------------------------------------------------------------------
  // The refresh schedule

  const MaxRetries: nat := 3
  const FirstDelayMs: int := 200

  function Pow2(k: nat): (p: nat)
    ensures p >= 1
  {
    if k == 0 then 1 else 2 * Pow2(k - 1)
  }

  /** The waits after the first k failed attempts, in milliseconds. */
  function RetryWaits(k: nat): (w: seq<int>)
    ensures |w| == k
    ensures forall j :: 0 <= j < k ==> w[j] == FirstDelayMs * Pow2(j)
  {
    seq(k, j requires 0 <= j < k => FirstDelayMs * Pow2(j))
  }

  /** The schedule doubles from 200 ms: 200, 400 and 800 ms. */
  lemma RetrySchedule()
    ensures RetryWaits(MaxRetries) == [200, 400, 800]
    ensures forall k: nat, j :: 0 < j < k ==> RetryWaits(k)[j] == 2 * RetryWaits(k)[j - 1]
  {
    assert Pow2(1) == 2 && Pow2(2) == 4;
  }

  /** The first attempt from `from` on that signs in. */
  function FirstSuccess(shop: Option<ShopData>, url: Option<string>, env: seq<Attempt>, from: nat,
                        decode: string -> Result<string>, fmt: NumberFormat): (r: Option<nat>)
    ensures r.Some? ==>
      from <= r.value < |env|
      && SignInOutcomeOf(shop, url, env[r.value], decode, fmt).SignedIn?
      && forall j :: from <= j < r.value ==> !SignInOutcomeOf(shop, url, env[j], decode, fmt).SignedIn?
    ensures r.None? <==> forall j :: from <= j < |env| ==> !SignInOutcomeOf(shop, url, env[j], decode, fmt).SignedIn?
    decreases |env| - from
  {
    if from >= |env| then None
    else if SignInOutcomeOf(shop, url, env[from], decode, fmt).SignedIn? then Some(from)
    else FirstSuccess(shop, url, env, from + 1, decode, fmt)
  }

  /** What GetValidAccessToken does. */
  datatype Refresh =
    | NoShop                                 // no cached settings
    | Reused(cached: Option<string>)         // the cached token is still fresh
    | SignedInAt(k: nat, token: string, exp: int)
    | GaveUp                                 // every attempt failed

  function RefreshOf(shop: Option<ShopData>, url: Option<string>, now: int, env: seq<Attempt>,
                     decode: string -> Result<string>, fmt: NumberFormat): (r: Refresh)
    ensures r.SignedInAt? ==> r.k < |env|
  {
    if shop.None? then NoShop
    else if TokenIsFresh(shop.value.fptAccessToken, shop.value.fptTokenExpiryTime, now) then
      Reused(shop.value.fptAccessToken)
    else
      match FirstSuccess(shop, url, env, 0, decode, fmt)
      case Some(k) =>
        var o := SignInOutcomeOf(shop, url, env[k], decode, fmt);
        SignedInAt(k, o.token, o.exp)
      case None => GaveUp
  }

  /** The token GetValidAccessToken returns. */
  function TokenOf(r: Refresh): Option<string>
  {
    match r
    case NoShop => None
    case Reused(t) => t
    case SignedInAt(_, t, _) => Some(t)
    case GaveUp => None
  }

  /** How many sign-ins it tries. */
  function AttemptsOf(r: Refresh): nat
  {
    match r
    case SignedInAt(k, _, _) => k + 1
    case GaveUp => MaxRetries
    case _ => 0
  }

  /** How many times it waits. */
  function WaitsOf(r: Refresh): nat
  {
    match r
    case SignedInAt(k, _, _) => k
    case GaveUp => MaxRetries
    case _ => 0
  }

  /** The session cache after it. */
  function CacheAfter(c: Cache, user: Option<string>, r: Refresh, env: seq<Attempt>): Cache
    requires r.SignedInAt? ==> r.k < |env| && c.shop.Some?
  {
    if r.SignedInAt? then StoreToken(c, c.shop.value, user, env[r.k].firestoreOk, r.token, r.exp)
    else c
  }

  /** One step of the retry loop: while the attempts so far have failed,
      a successful attempt k decides the refresh, and a failed one passes
      the search on to k + 1. */
  lemma RefreshStep(shop: ShopData, url: Option<string>, now: int, env: seq<Attempt>, k: nat,
                    decode: string -> Result<string>, fmt: NumberFormat)
    requires k < |env|
    requires !TokenIsFresh(shop.fptAccessToken, shop.fptTokenExpiryTime, now)
    requires FirstSuccess(Some(shop), url, env, 0, decode, fmt) == FirstSuccess(Some(shop), url, env, k, decode, fmt)
    ensures var o := SignInOutcomeOf(Some(shop), url, env[k], decode, fmt);
      if o.SignedIn? then RefreshOf(Some(shop), url, now, env, decode, fmt) == SignedInAt(k, o.token, o.exp)
      else FirstSuccess(Some(shop), url, env, 0, decode, fmt) == FirstSuccess(Some(shop), url, env, k + 1, decode, fmt)
  {
  }

  /** When no attempt signs in the refresh gives up. */
  lemma RefreshExhausted(shop: ShopData, url: Option<string>, now: int, env: seq<Attempt>,
                         decode: string -> Result<string>, fmt: NumberFormat)
    requires !TokenIsFresh(shop.fptAccessToken, shop.fptTokenExpiryTime, now)
    requires FirstSuccess(Some(shop), url, env, 0, decode, fmt) == FirstSuccess(Some(shop), url, env, |env|, decode, fmt)
    ensures RefreshOf(Some(shop), url, now, env, decode, fmt) == GaveUp
  {
  }

  /** The cached token is returned without any sign-in iff it is fresh. */
  lemma FreshTokenReused(shop: ShopData, url: Option<string>, now: int, env: seq<Attempt>,
                         decode: string -> Result<string>, fmt: NumberFormat)
    ensures var r := RefreshOf(Some(shop), url, now, env, decode, fmt);
      (AttemptsOf(r) == 0 <==> TokenIsFresh(shop.fptAccessToken, shop.fptTokenExpiryTime, now))
      && (AttemptsOf(r) == 0 ==> TokenOf(r) == shop.fptAccessToken && WaitsOf(r) == 0)
  {
  }

  /** A refresh returns the token of the first attempt that signs in, after
      one wait per earlier failure, and that token is the one cached; after
      three failures it returns null having waited 200, 400 and 800 ms. */
  lemma RefreshTakesFirstSuccess(shop: ShopData, url: Option<string>, now: int, env: seq<Attempt>,
                                 decode: string -> Result<string>, fmt: NumberFormat,
                                 c: Cache, user: Option<string>)
    requires |env| == MaxRetries
    requires c.shop == Some(shop)
    requires !TokenIsFresh(shop.fptAccessToken, shop.fptTokenExpiryTime, now)
    ensures var r := RefreshOf(Some(shop), url, now, env, decode, fmt);
      match FirstSuccess(Some(shop), url, env, 0, decode, fmt)
      case Some(k) =>
        AttemptsOf(r) == k + 1 && RetryWaits(WaitsOf(r)) == RetryWaits(k)
        && TokenOf(r) == Some(env[k].response.body)
        && CacheAfter(c, user, r, env).shop.value.fptAccessToken == TokenOf(r)
      case None =>
        AttemptsOf(r) == 3 && RetryWaits(WaitsOf(r)) == [200, 400, 800] && TokenOf(r).None?
        && CacheAfter(c, user, r, env) == c
  {
    RetrySchedule();
    var f := FirstSuccess(Some(shop), url, env, 0, decode, fmt);
    if f.Some? {
      SignInGuards(Some(shop), url, env[f.value], decode, fmt);
    }
  }

  // ---------------------------------------------------------------------
  // The client

  class ApiClient {
    /** fptDefaultConfig.signInUrl (None when the config or URL is null). */
    var signInUrl: Option<string>
    /** The signed-in Firebase user's id; shopDocRef is set with it. */
    var currentUser: Option<string>

    constructor(url: Option<string>, user: Option<string>)
      ensures signInUrl == url && currentUser == user
    {
      signInUrl := url;
      currentUser := user;
    }

    /** UpdateFptTokenInFirestoreAndCache: without a user nothing happens;
        a failed Firestore update is swallowed; otherwise the token goes
        into the cached shop and SetCachedShopSettings re-caches it. */
    method UpdateTokenInFirestoreAndCache(session: Session, token: string, exp: int, firestoreOk: bool)
      requires session.cachedShop.Some?
      modifies session
      ensures CacheOf(session) ==
        if currentUser.Some? && firestoreOk then
          StoreToken(old(CacheOf(session)), old(session.cachedShop.value), currentUser, true, token, exp)
        else old(CacheOf(session))
      ensures session.packageConfig == old(session.packageConfig)
      ensures session.globalConfig == old(session.globalConfig)
    {
      if currentUser.None? {
        return;
      }
      if !firestoreOk {
        return;
      }
      var d := WithToken(session.cachedShop.value, token, exp);
      session.cachedShop := Some(d);
      session.SetCachedShopSettings(currentUser, d);
    }

    /** SignInAsync for one attempt: returns whether it signed in and the
        popup it showed. */
    method SignIn(session: Session, a: Attempt, decode: string -> Result<string>, fmt: NumberFormat)
      returns (ok: bool, popup: Option<string>)
      modifies session
      ensures var o := SignInOutcomeOf(old(session.cachedShop), signInUrl, a, decode, fmt);
        ok == o.SignedIn? && popup == Popup(o)
        && CacheOf(session) ==
             if o.SignedIn? then
               StoreToken(old(CacheOf(session)), old(session.cachedShop.value), currentUser, a.firestoreOk, o.token, o.exp)
             else old(CacheOf(session))
      ensures session.packageConfig == old(session.packageConfig)
      ensures session.globalConfig == old(session.globalConfig)
    {
      var shop := session.cachedShop;
      if shop.None? || DotNetText.IsNullOrEmpty(shop.value.eInvoiceUser)
         || DotNetText.IsNullOrEmpty(shop.value.eInvoicePass) {
        return false, Some(CredentialsMissingMsg);
      }
      if DotNetText.IsNullOrEmpty(signInUrl) {
        return false, Some(SignInUrlMissingMsg);
      }
      if !a.online {
        return false, Some(OfflineMsg);
      }
      var response := a.response;
      if response.result != Success {
        return false, FailureMessage(response, None, fmt);
      }
      var o := TokenOutcome(response.body, decode, fmt);
      if !o.SignedIn? {
        return false, Popup(o);
      }
      session.cachedShop := Some(WithToken(shop.value, o.token, o.exp));
      UpdateTokenInFirestoreAndCache(session, o.token, o.exp, a.firestoreOk);
      return true, None;
    }

    /** GetValidAccessToken: the cached token while fresh, otherwise up to
        three sign-ins, waiting 200 ms and doubling after each failure.
        `env` gives what each attempt sees; `waits` lists the delays. */
    method GetValidAccessToken(session: Session, now: int, env: seq<Attempt>,
                               decode: string -> Result<string>, fmt: NumberFormat)
      returns (token: Option<string>, waits: seq<int>, tried: nat)
      requires |env| == MaxRetries
      modifies session
      ensures var r := RefreshOf(old(session.cachedShop), signInUrl, now, env, decode, fmt);
        token == TokenOf(r) && tried == AttemptsOf(r) && waits == RetryWaits(WaitsOf(r))
        && (r.SignedInAt? ==> old(session.cachedShop).Some?)
        && CacheOf(session) == CacheAfter(old(CacheOf(session)), currentUser, r, env)
      ensures session.packageConfig == old(session.packageConfig)
      ensures session.globalConfig == old(session.globalConfig)
    {
      var shop := session.cachedShop;
      if shop.None? {
        return None, [], 0;
      }
      if TokenIsFresh(shop.value.fptAccessToken, shop.value.fptTokenExpiryTime, now) {
        return shop.value.fptAccessToken, [], 0;
      }
      var retryDelay := FirstDelayMs;
      var k := 0;
      waits := [];
      while k < MaxRetries
        invariant 0 <= k <= MaxRetries
        invariant retryDelay == FirstDelayMs * Pow2(k)
        invariant waits == RetryWaits(k)
        invariant CacheOf(session) == old(CacheOf(session))
        invariant session.packageConfig == old(session.packageConfig)
        invariant session.globalConfig == old(session.globalConfig)
        invariant FirstSuccess(shop, signInUrl, env, 0, decode, fmt) == FirstSuccess(shop, signInUrl, env, k, decode, fmt)
      {
        RefreshStep(shop.value, signInUrl, now, env, k, decode, fmt);
        var ok, _ := SignIn(session, env[k], decode, fmt);
        if ok {
          return session.cachedShop.value.fptAccessToken, waits, k + 1;
        }
        waits := waits + [retryDelay];
        retryDelay := retryDelay * 2;
        k := k + 1;
      }
      RefreshExhausted(shop.value, signInUrl, now, env, decode, fmt);
      return None, waits, MaxRetries;
    }

    /** SendApiRequestAsync: offline or without a token nothing is sent;
        otherwise the payload goes out as compact JSON and the response is
        either the data or a failure message. `request` is the body sent
        (Some(None) for a request without payload). A JSONNull payload
        counts as none, since JSONNull's == operator equates it with null. */
    method SendApiRequest(session: Session, online: bool, now: int, env: seq<Attempt>,
                          decode: string -> Result<string>, fmt: NumberFormat,
                          payload: Option<Json>, response: HttpResponse)
      returns (success: bool, data: Option<string>, message: Option<string>, request: Option<Option<string>>)
      requires |env| == MaxRetries
      modifies session
      ensures !online ==>
        !success && data.None? && message == Some(OfflineMsg) && request.None?
        && CacheOf(session) == old(CacheOf(session))
      ensures online ==>
        var r := RefreshOf(old(session.cachedShop), signInUrl, now, env, decode, fmt);
        CacheOf(session) == CacheAfter(old(CacheOf(session)), currentUser, r, env)
        && (DotNetText.IsNullOrEmpty(TokenOf(r)) ==>
              !success && data.None? && message == Some(NoTokenMsg) && request.None?)
        && (!DotNetText.IsNullOrEmpty(TokenOf(r)) ==>
              request == Some(if payload.Some? && payload.value != JNull then Some(Save(payload.value, Compact, fmt))
                              else None)
              && (success <==> response.result == Success)
              && (success ==> data == Some(response.body) && message.None?)
              && (!success ==> data.None? && message == FailureMessage(response, Some(TooManyRequestsMsg), fmt)))
      ensures !success ==> message.Some?
      ensures session.packageConfig == old(session.packageConfig)
      ensures session.globalConfig == old(session.globalConfig)
    {
      if !online {
        return false, None, Some(OfflineMsg), None;
      }
      var token, _, _ := GetValidAccessToken(session, now, env, decode, fmt);
      if DotNetText.IsNullOrEmpty(token) {
        return false, None, Some(NoTokenMsg), None;
      }
      var body: Option<string> := None;
      if payload.Some? && payload.value != JNull {
        body := Some(Save(payload.value, Compact, fmt));
      }
      request := Some(body);
      if response.result == Success {
        return true, Some(response.body), None, request;
      }
      var m := FailureMessage(response, Some(TooManyRequestsMsg), fmt);
      return false, None, m, request;
    }
  }
}
