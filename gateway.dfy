/**
 * The WooCommerce gateway (class WC_Gateway_Syspay): building the SDK from the
 * gateway settings, checkout payment processing and the handling of a direct
 * (non-redirect) Syspay reply. WooCommerce calls that change the order, the
 * cart, the session or the stock are recorded as effects, in the order they
 * happen.
 */
module Gateway {
  import opened Wrappers
  import opened Php
  import opened Runtime
  import opened Conf
  import opened Response
  import opened Outbound
  import opened Sdk

  // ---------------------------------------------------------------- settings and the SDK

  /** $this->get_option($key): the stored value, else the form field's default. */
  function GetOption(settings: map<string, string>, key: string, default: string): string {
    if key in settings then settings[key] else default
  }

  /** The credentials syspay_sdk_factory passes to MerchantConf: each option trimmed. */
  function GatewayCredentials(settings: map<string, string>): Credentials {
    Credentials(
      Trim(GetOption(settings, "api_key", "")),
      Trim(GetOption(settings, "passphrase", "")),
      Trim(GetOption(settings, "public_key", "")),
      Trim(GetOption(settings, "source_id", "")))
  }

  /** get_option('testmode', 'no') === 'yes'. */
  predicate GatewayTestMode(settings: map<string, string>) {
    GetOption(settings, "testmode", "no") == "yes"
  }

  /** The options are trimmed before the validity test, so a whitespace-only api key makes the settings invalid. */
  lemma GatewayCredentialsTrimmed(settings: map<string, string>)
    requires "api_key" in settings
    requires forall k :: 0 <= k < |settings["api_key"]| ==> IsTrimChar(settings["api_key"][k])
    ensures !GatewayCredentials(settings).IsValid()
  {
    TrimEmptyIff(settings["api_key"]);
  }

  /**
   * syspay_sdk_factory(): throws 'Invalid MerchantConf' when the trimmed
   * credentials are invalid; otherwise the SDK holds them, in test mode exactly
   * when the testmode option is 'yes'.
   */
  method SyspaySdkFactory(settings: map<string, string>) returns (r: Result<SyspaySdk, Failure>)
    ensures r.Err? <==> !GatewayCredentials(settings).IsValid()
    ensures r.Err? ==> r.error == InvalidMerchantConf
    ensures r.Ok? ==> fresh(r.value) && fresh(r.value.merchantConf) &&
                      r.value.merchantConf.Snapshot() == GatewayCredentials(settings) &&
                      r.value.testMode == GatewayTestMode(settings) && r.value.lastQuery == None
  {
    r := NewSdk(GatewayCredentials(settings), GatewayTestMode(settings));
  }

  /** new SyspaySDK over a MerchantConf holding `creds`, switched to test mode when asked. */
  method NewSdk(creds: Credentials, testMode: bool) returns (r: Result<SyspaySdk, Failure>)
    ensures r.Err? <==> !creds.IsValid()
    ensures r.Err? ==> r.error == InvalidMerchantConf
    ensures r.Ok? ==> fresh(r.value) && fresh(r.value.merchantConf) &&
                      r.value.merchantConf.Snapshot() == creds &&
                      r.value.testMode == testMode && r.value.lastQuery == None
  {
    var conf := BuildMerchantConf(creds);
    r := SyspaySdk.New(conf);
    if r.Ok? && testMode {
      var sdk := r.value;
      sdk.EnableTestMode();
    }
  }

  /** new MerchantConf() followed by the four setters. */
  method BuildMerchantConf(creds: Credentials) returns (conf: MerchantConf)
    ensures fresh(conf) && conf.Snapshot() == creds
  {
    conf := new MerchantConf();
    conf := conf.SetLogin(creds.login);
    conf := conf.SetPassphrase(creds.passphrase);
    conf := conf.SetPublicKey(creds.publicKey);
    conf := conf.SetSourceId(creds.sourceId);
  }

  // ---------------------------------------------------------------- billing phone

  /** Seven to fifteen decimal digits. */
  predicate PhoneDigits(s: string) {
    7 <= |s| <= 15 && IsDigits(s)
  }

  /**
   * preg_match('/^[0-9]{7,15}$/', $s): without the D modifier `$` also matches
   * before a final newline, so one trailing "\n" is accepted.
   */
  predicate MatchesPhonePattern(s: string) {
    PhoneDigits(s) || (|s| > 0 && s[|s| - 1] == '\n' && PhoneDigits(s[..|s| - 1]))
  }

  /** str_replace('+', '00', $s). */
  function ReplacePlus(s: string): (r: string)
    ensures '+' !in r
    ensures '+' !in s ==> r == s
    ensures IsDigits(r) <==> forall k :: 0 <= k < |s| ==> IsDigit(s[k]) || s[k] == '+'
    decreases |s|
  {
    if s == [] then []
    else
      var head := if s[0] == '+' then "00" else [s[0]];
      var rest := ReplacePlus(s[1..]);
      assert IsDigits(head) <==> IsDigit(s[0]) || s[0] == '+' by {
        if s[0] == '+' { assert head[0] == '0' && head[1] == '0'; } else { assert head[0] == s[0] && |head| == 1; }
      }
      assert (forall k :: 0 <= k < |s| ==> IsDigit(s[k]) || s[k] == '+') <==>
             (IsDigit(s[0]) || s[0] == '+') && (forall k :: 0 <= k < |s[1..]| ==> IsDigit(s[1..][k]) || s[1..][k] == '+') by {
        assert forall k :: 0 <= k < |s[1..]| ==> s[1..][k] == s[k + 1];
        if (IsDigit(s[0]) || s[0] == '+') && (forall k :: 0 <= k < |s[1..]| ==> IsDigit(s[1..][k]) || s[1..][k] == '+') {
          forall k | 0 <= k < |s| ensures IsDigit(s[k]) || s[k] == '+' {
            if k > 0 { assert s[k] == s[1..][k - 1]; }
          }
        }
      }
      IsDigitsConcat(head, rest);
      head + rest
  }

  /** The phone process_payment accepts, after its one rewrite; None is the rejection notice. */
  function NormalizePhone(phone: string): (r: Option<string>)
    ensures r.Some? ==> MatchesPhonePattern(r.value) && '+' !in r.value
  {
    if MatchesPhonePattern(phone) then
      assert forall k :: 0 <= k < |phone| ==> phone[k] != '+' by {
        if !PhoneDigits(phone) {
          assert forall k :: 0 <= k < |phone| - 1 ==> phone[..|phone| - 1][k] == phone[k];
        }
      }
      Some(phone)
    else if MatchesPhonePattern(ReplacePlus(phone)) then Some(ReplacePlus(phone))
    else None
  }

  /**
   * A phone that already matches is kept as is; an accepted phone is accepted
   * again unchanged (normalising is idempotent); and a phone holding any
   * character other than digits, '+' and one final newline is rejected,
   * whether that character comes before the last position or is the last.
   */
  lemma NormalizePhoneProperties(phone: string)
    ensures MatchesPhonePattern(phone) ==> NormalizePhone(phone) == Some(phone)
    ensures NormalizePhone(phone).Some? ==> NormalizePhone(NormalizePhone(phone).value) == NormalizePhone(phone)
    ensures (exists k :: 0 <= k < |phone| - 1 && !IsDigit(phone[k]) && phone[k] != '+') ==> NormalizePhone(phone).None?
    ensures |phone| > 0 && !IsDigit(phone[|phone| - 1]) && phone[|phone| - 1] != '+' && phone[|phone| - 1] != '\n' ==>
      NormalizePhone(phone).None?
  {
    if exists k :: 0 <= k < |phone| - 1 && !IsDigit(phone[k]) && phone[k] != '+' {
      var k :| 0 <= k < |phone| - 1 && !IsDigit(phone[k]) && phone[k] != '+';
      ForeignCharRejected(phone, k);
    }
    if |phone| > 0 && !IsDigit(phone[|phone| - 1]) && phone[|phone| - 1] != '+' && phone[|phone| - 1] != '\n' {
      ForeignLastRejected(phone);
    }
  }

  /** A last character that is no digit, '+' or newline stays last after the rewrite, so no match. */
  lemma ForeignLastRejected(phone: string)
    requires |phone| > 0
    requires !IsDigit(phone[|phone| - 1]) && phone[|phone| - 1] != '+' && phone[|phone| - 1] != '\n'
    ensures NormalizePhone(phone).None?
  {
    assert !PhoneDigits(phone) by { assert !IsDigit(phone[|phone| - 1]); }
    var t := ReplacePlus(phone);
    ReplacePlusLast(phone);
    assert !PhoneDigits(t) by { assert !IsDigit(t[|t| - 1]); }
  }

  /** str_replace('+', '00', s) ends with the last character of s when that is not '+'. */
  lemma {:induction false} ReplacePlusLast(s: string)
    requires |s| > 0 && s[|s| - 1] != '+'
    ensures |ReplacePlus(s)| > 0 && ReplacePlus(s)[|ReplacePlus(s)| - 1] == s[|s| - 1]
    decreases |s|
  {
    var head := if s[0] == '+' then "00" else [s[0]];
    assert ReplacePlus(s) == head + ReplacePlus(s[1..]);
    if |s| > 1 {
      ReplacePlusLast(s[1..]);
    }
  }

  /** A character other than a digit or '+' before the last position survives the rewrite, so no match. */
  lemma ForeignCharRejected(phone: string, k: int)
    requires 0 <= k < |phone| - 1 && !IsDigit(phone[k]) && phone[k] != '+'
    ensures NormalizePhone(phone).None?
  {
    assert !MatchesPhonePattern(phone) by {
      assert phone[..|phone| - 1][k] == phone[k];
    }
    var t := ReplacePlus(phone);
    if MatchesPhonePattern(t) {
      var d := if PhoneDigits(t) then t else t[..|t| - 1];
      assert IsDigits(d);
      ReplacePlusKeeps(phone, k);
    }
  }

  /**
   * A character of s that is neither '+' nor the last one reappears in
   * str_replace('+', '00', s) before the last position.
   */
  lemma {:induction false} ReplacePlusKeeps(s: string, k: int)
    requires 0 <= k < |s| - 1 && s[k] != '+'
    ensures exists j :: 0 <= j < |ReplacePlus(s)| - 1 && ReplacePlus(s)[j] == s[k]
    decreases |s|
  {
    var head := if s[0] == '+' then "00" else [s[0]];
    var rest := ReplacePlus(s[1..]);
    assert ReplacePlus(s) == head + rest;
    assert |rest| >= 1 by { ReplacePlusNonEmpty(s[1..]); }
    if k == 0 {
      assert (head + rest)[0] == s[0];
    } else {
      ReplacePlusKeeps(s[1..], k - 1);
      var j :| 0 <= j < |rest| - 1 && rest[j] == s[1..][k - 1];
      assert (head + rest)[|head| + j] == s[k];
    }
  }

  lemma {:induction false} ReplacePlusNonEmpty(s: string)
    requires s != []
    ensures |ReplacePlus(s)| >= 1
  {
    assert ReplacePlus(s) == (if s[0] == '+' then "00" else [s[0]]) + ReplacePlus(s[1..]);
  }

  /** The international form "+" followed by up to thirteen digits becomes "00" and the digits. */
  lemma InternationalPrefix(digits: string)
    requires 5 <= |digits| <= 13 && IsDigits(digits)
    ensures NormalizePhone("+" + digits) == Some("00" + digits)
  {
    var s := "+" + digits;
    assert s[1..] == digits;
    assert '+' !in digits by { assert forall k :: 0 <= k < |digits| ==> IsDigit(digits[k]); }
    assert ReplacePlus(s) == "00" + ReplacePlus(digits);
    assert !IsDigit(s[0]);
    assert !MatchesPhonePattern(s) by {
      assert s[|s| - 1] == digits[|digits| - 1];
    }
    var t := "00" + digits;
    assert IsDigits(t) by {
      forall k | 0 <= k < |t| ensures IsDigit(t[k]) {
        if k >= 2 { assert t[k] == digits[k - 2]; }
      }
    }
  }

  // ---------------------------------------------------------------- the order and its effects

  datatype Address = Address(firstName: string, lastName: string, email: string, phone: string)

  /** The WooCommerce order: its id, total in cents, customer id (0 for guests) and billing address. */
  datatype Order = Order(id: int, totalCents: int, userId: int, address: Address)

  /** What process_payment needs from WordPress besides the order. */
  datatype CheckoutEnv = CheckoutEnv(
    returnUrl: string,     // add_query_arg('wc-api', 'syspay', home_url('/'))
    thankYouUrl: string,   // $this->get_return_url()
    locale: string,        // get_locale()
    server: map<string, string>)

  /** The wc_add_notice(..., 'error') messages. */
  datatype Notice =
    | OrderNotFound
    | InvalidSubmission
    | InvalidPhone
    | PaymentException(failure: Failure)
    | PaymentFailed(message: string)

  /** WooCommerce side effects, recorded in the order they happen. */
  datatype Effect =
    | AddNotice(notice: Notice)
    | PaymentRequested(payload: map<string, Value>)   // sendPayment was called with this payload
    | SessionOrderId(orderId: int)                     // $_SESSION['syspay_order_id']
    | StockReduced(orderId: int)                       // wc_reduce_stock_levels
    | TidSaved(order: Value, tid: Value)               // update_post_meta(..., 'Syspay_Tid', ...)
    | OrderFailed(order: Value, note: string)          // update_status('failed', ...)
    | PaymentCompleted(order: Value)                   // payment_complete()
    | CartEmptied                                      // empty_cart()

  /** How process_payment ends. */
  datatype CheckoutReturn =
    | ResultArray(result: string, redirect: Option<Value>)
    | NoArray                      // returns what wc_add_notice returns: null
    | Raised(failure: Failure)     // an exception leaves process_payment
    | Crashed(fatal: Fatal)

  const ERROR_RESULT := ResultArray("error", None)

  // ---------------------------------------------------------------- process_response

  /** The note and notice of a failed payment: sprintf('Status %s category %s', ...). */
  function FailureNote(r: SyspayResponse): string {
    "Status " + ToStr(r.Status()) + " category " + ToStr(r.FailureCategory())
  }

  /** process_response's return value: false for a final failure, true for success, else null. */
  function ResponseOutcome(r: SyspayResponse): Option<bool> {
    if !r.IsSuccess() && r.IsCodeFinal() then Some(false)
    else if r.IsSuccess() then Some(true)
    else None
  }

  /** The effects process_response performs on the order the response names. */
  function ResponseEffects(r: SyspayResponse): seq<Effect> {
    [TidSaved(r.OrderId(), r.Tid())] +
    match ResponseOutcome(r)
    case Some(false) => [OrderFailed(r.OrderId(), FailureNote(r)), AddNotice(PaymentFailed(FailureNote(r)))]
    case Some(true) => [PaymentCompleted(r.OrderId()), CartEmptied]
    case None => []
  }

  /**
   * The three outcomes of process_response: a final failure marks the order
   * failed; a success completes it and empties the cart; anything else (OPEN, a
   * missing status) changes no order status. For a string status these are
   * FAILED/CANCELLED/ERROR/TIMED_OUT, SUCCESS, and every other string. The
   * transaction id is saved in every case.
   */
  lemma ResponseOutcomeThreeWay(r: SyspayResponse)
    ensures ResponseOutcome(r) == Some(false) <==> r.IsCodeFinal() && !r.IsSuccess()
    ensures ResponseOutcome(r) == Some(true) <==> r.IsSuccess()
    ensures ResponseOutcome(r) == None <==> !r.IsCodeFinal()
    ensures r.Status().Str? ==>
      && (ResponseOutcome(r) == Some(false) <==> r.Status().s in {FAILED, CANCELLED, ERROR, TIMED_OUT})
      && (ResponseOutcome(r) == Some(true) <==> r.Status().s == SUCCESS)
      && (ResponseOutcome(r) == None <==> r.Status().s !in FINAL_CODES)
    ensures ResponseEffects(r)[0] == TidSaved(r.OrderId(), r.Tid())
    ensures ResponseOutcome(r) == Some(false) ==>
      ResponseEffects(r)[1..] == [OrderFailed(r.OrderId(), FailureNote(r)), AddNotice(PaymentFailed(FailureNote(r)))]
    ensures ResponseOutcome(r) == Some(true) ==> ResponseEffects(r)[1..] == [PaymentCompleted(r.OrderId()), CartEmptied]
    ensures (PaymentCompleted(r.OrderId()) in ResponseEffects(r)) <==> ResponseOutcome(r) == Some(true)
    ensures ResponseOutcome(r) == None ==> |ResponseEffects(r)| == 1
  {
    SuccessIsFinal(r);
    IsSuccessIff(r);
    IsFinalCodeIff(r.Status());
    var e := ResponseEffects(r);
    if ResponseOutcome(r) == Some(false) {
      assert e[1..] == [OrderFailed(r.OrderId(), FailureNote(r)), AddNotice(PaymentFailed(FailureNote(r)))];
      assert PaymentCompleted(r.OrderId()) !in e;
    }
  }

  /** process_response($response): saves the transaction id, then settles the order. */
  method ProcessResponse(r: SyspayResponse) returns (ret: Option<bool>, effects: seq<Effect>)
    ensures ret == ResponseOutcome(r) && effects == ResponseEffects(r)
  {
    effects := [TidSaved(r.OrderId(), r.Tid())];
    if !r.IsSuccess() && r.IsCodeFinal() {
      var message := FailureNote(r);
      effects := effects + [OrderFailed(r.OrderId(), message), AddNotice(PaymentFailed(message))];
      ret := Some(false);
    } else if r.IsSuccess() {
      effects := effects + [PaymentCompleted(r.OrderId()), CartEmptied];
      ret := Some(true);
    } else {
      ret := None;
    }
  }

  // ---------------------------------------------------------------- process_payment

  /** !empty($_POST['syspay-token']). */
  predicate TokenPresent(post: map<string, string>) {
    "syspay-token" in post && !EmptyString(post["syspay-token"])
  }

  /** The PaymentConf process_payment fills for an order. */
  function CheckoutRequest(o: Order, post: map<string, string>, env: CheckoutEnv, p: Primitives): PaymentRequest
    requires "syspay-token" in post
  {
    PaymentRequest(
      amount := Int(o.totalCents),
      description := Int(o.id),
      extra := Str(""),
      returnUrl := Str(env.returnUrl),
      emsUrl := Str(env.returnUrl),
      tokenKey := Str(p.sanitize(post["syspay-token"])),
      customerFirstName := Str(o.address.firstName),
      customerLastName := Str(o.address.lastName),
      customerEmail := Str(o.address.email),
      customerLanguage := Str(if env.locale == "fr_FR" then "fr" else "en"),
      customerReference := Int(o.userId),
      customerIP := CustomerIp(Str(""), env.server, p.isPublicIp))
  }

  /** Every check process_payment makes before it calls the SDK passes. */
  predicate PassesChecks(order: Option<Order>, post: map<string, string>, settings: map<string, string>) {
    order.Some? && TokenPresent(post) && GatewayCredentials(settings).IsValid() &&
    NormalizePhone(order.value.address.phone).Some?
  }

  /**
   * How process_payment continues once sendPayment has returned `outcome` for
   * `payload`: an exception or a reply with error_code gives 'error'; after a
   * good reply the session is set and stock reduced first; then a redirect
   * reply gives 'success' with its action_url, and only a non-redirect reply
   * goes through process_response.
   */
  predicate CheckoutTail(outcome: SendOutcome, payload: map<string, Value>, o: Order, thankYouUrl: string,
                         ret: CheckoutReturn, effects: seq<Effect>) {
    match outcome
    case Thrown(f) => ret == ERROR_RESULT && effects == [PaymentRequested(payload), AddNotice(PaymentException(f))]
    case NoResponse => ret == Crashed(MethodCallOnNull) && effects == [PaymentRequested(payload)]
    case NotAnArray(_) => ret == Crashed(ArrayTypeError) && effects == [PaymentRequested(payload)]
    case Received(r) =>
      if r.HasError() then
        ret == ERROR_RESULT && effects == [PaymentRequested(payload), AddNotice(PaymentException(ApiError))]
      else
        && |effects| >= 3
        && effects[..3] == [PaymentRequested(payload), SessionOrderId(o.id), StockReduced(o.id)]
        && (r.IsRedirect() ==> ret == ResultArray("success", Some(r.ActionUrl())) && |effects| == 3)
        && (!r.IsRedirect() ==>
              effects[3..] == ResponseEffects(r) &&
              ret == (if ResponseOutcome(r) == Some(true) then ResultArray("success", Some(Str(thankYouUrl)))
                      else ERROR_RESULT))
  }

  /**
   * `(new PaymentConf)->setAmount(...)->...->setCustomerIP()`: the setter chain
   * both payment paths of the plugin use, in their order. The resulting object
   * holds `want` whenever `want` is something the chain can produce.
   */
  method ChainPaymentConf(want: PaymentRequest, server: map<string, string>, isPublicIp: string -> bool)
    returns (conf: PaymentConf)
    requires want.amount.Int? && want.extra == Str("")
    requires want.customerIP == CustomerIp(Str(""), server, isPublicIp)
    ensures fresh(conf) && conf.Snapshot() == want
  {
    conf := new PaymentConf();
    SetPaymentFields(conf, want);
    SetCustomerFields(conf, want);
    var _ := conf.SetCustomerIP(Str(""), server, isPublicIp);
  }

  /** The order half of the chain: amount, description, return and notification URLs, token. */
  method SetPaymentFields(conf: PaymentConf, want: PaymentRequest)
    requires want.amount.Int?
    modifies conf`amount, conf`description, conf`returnUrl, conf`emsUrl, conf`tokenKey
    ensures conf.amount == want.amount && conf.description == want.description
    ensures conf.returnUrl == want.returnUrl && conf.emsUrl == want.emsUrl && conf.tokenKey == want.tokenKey
  {
    var _ := conf.SetAmount(want.amount.i);
    var _ := conf.SetDescription(want.description);
    var _ := conf.SetReturnUrl(want.returnUrl);
    var _ := conf.SetEmsUrl(want.emsUrl);
    var _ := conf.SetTokenKey(want.tokenKey);
  }

  /** The customer half of the chain, in the source's order. */
  method SetCustomerFields(conf: PaymentConf, want: PaymentRequest)
    modifies conf`customerEmail, conf`customerReference, conf`customerFirstName, conf`customerLastName,
             conf`customerLanguage
    ensures conf.customerEmail == want.customerEmail && conf.customerReference == want.customerReference
    ensures conf.customerFirstName == want.customerFirstName && conf.customerLastName == want.customerLastName
    ensures conf.customerLanguage == want.customerLanguage
  {
    var _ := conf.SetCustomerEmail(want.customerEmail);
    var _ := conf.SetCustomerReference(want.customerReference);
    var _ := conf.SetCustomerFirstName(want.customerFirstName);
    var _ := conf.SetCustomerLastName(want.customerLastName);
    var _ := conf.SetCustomerLanguage(want.customerLanguage);
  }

  /** The part of process_payment after sendPayment. */
  method FinishCheckout(outcome: SendOutcome, payload: map<string, Value>, o: Order, thankYouUrl: string)
    returns (ret: CheckoutReturn, effects: seq<Effect>)
    ensures CheckoutTail(outcome, payload, o, thankYouUrl, ret, effects)
    ensures |effects| > 0 && effects[0] == PaymentRequested(payload)
  {
    effects := [PaymentRequested(payload)];
    match outcome {
      case Thrown(f) =>
        return ERROR_RESULT, effects + [AddNotice(PaymentException(f))];
      case NoResponse =>
        return Crashed(MethodCallOnNull), effects;
      case NotAnArray(_) =>
        return Crashed(ArrayTypeError), effects;
      case Received(response) =>
        if response.HasError() {
          return ERROR_RESULT, effects + [AddNotice(PaymentException(ApiError))];
        }
        effects := effects + [SessionOrderId(o.id), StockReduced(o.id)];
        if response.IsRedirect() {
          return ResultArray("success", Some(response.ActionUrl())), effects;
        }
        var ok, settled := ProcessResponse(response);
        effects := effects + settled;
        if ok == Some(true) {
          ret := ResultArray("success", Some(Str(thankYouUrl)));
        } else {
          ret := ERROR_RESULT;
        }
    }
  }

  /**
   * process_payment($order_id). Early exits come before any SDK call: a missing
   * order or token returns result 'error', invalid settings throw, a phone that
   * does not normalise returns null. Otherwise the payment built from the order
   * is sent and CheckoutTail says how the call ends.
   */
  method ProcessPayment(order: Option<Order>, settings: map<string, string>, post: map<string, string>,
                        env: CheckoutEnv, p: Primitives, e: Entropy, reply: Transport)
    returns (ret: CheckoutReturn, effects: seq<Effect>)
    ensures order.None? ==> ret == ERROR_RESULT && effects == [AddNotice(OrderNotFound)]
    ensures order.Some? && !TokenPresent(post) ==> ret == ERROR_RESULT && effects == [AddNotice(InvalidSubmission)]
    ensures order.Some? && TokenPresent(post) && !GatewayCredentials(settings).IsValid() ==>
      ret == Raised(InvalidMerchantConf) && effects == []
    ensures order.Some? && TokenPresent(post) && GatewayCredentials(settings).IsValid() &&
            NormalizePhone(order.value.address.phone).None? ==>
      ret == NoArray && effects == [AddNotice(InvalidPhone)]
    ensures PassesChecks(order, post, settings) <==> |effects| > 0 && effects[0].PaymentRequested?
    ensures PassesChecks(order, post, settings) ==>
      CheckoutTail(Deliver(p, reply),
                   PaymentPayload(GatewayCredentials(settings), CheckoutRequest(order.value, post, env, p),
                                  e.referenceTime, e.referenceSuffix),
                   order.value, env.thankYouUrl, ret, effects)
  {
    if order.None? {
      return ERROR_RESULT, [AddNotice(OrderNotFound)];
    }
    if !TokenPresent(post) {
      return ERROR_RESULT, [AddNotice(InvalidSubmission)];
    }
    var o := order.value;
    var address := o.address;
    var factory := SyspaySdkFactory(settings);
    if factory.Err? {
      return Raised(factory.error), [];
    }
    var syspay := factory.value;
    var phoneOk := CheckPhone(address.phone);
    if !phoneOk {
      return NoArray, [AddNotice(InvalidPhone)];
    }
    ret, effects := Checkout(syspay, GatewayCredentials(settings), o, post, env, p, e, reply);
  }

  /** The billing phone check: try the phone as is, then once with '+' rewritten to "00". */
  method CheckPhone(phone: string) returns (ok: bool)
    ensures ok <==> NormalizePhone(phone).Some?
    ensures ok ==> MatchesPhonePattern(phone) || MatchesPhonePattern(ReplacePlus(phone))
  {
    var candidate := phone;
    if !MatchesPhonePattern(candidate) {
      candidate := ReplacePlus(candidate);
      if !MatchesPhonePattern(candidate) {
        return false;
      }
    }
    return true;
  }

  /** Build the PaymentConf, send it, and finish: process_payment once its checks have passed. */
  method Checkout(syspay: SyspaySdk, creds: Credentials, o: Order, post: map<string, string>, env: CheckoutEnv,
                  p: Primitives, e: Entropy, reply: Transport)
    returns (ret: CheckoutReturn, effects: seq<Effect>)
    requires "syspay-token" in post
    requires syspay.merchantConf.Snapshot() == creds
    modifies syspay`lastQuery
    ensures CheckoutTail(Deliver(p, reply),
                         PaymentPayload(creds, CheckoutRequest(o, post, env, p),
                                        e.referenceTime, e.referenceSuffix),
                         o, env.thankYouUrl, ret, effects)
    ensures |effects| > 0 && effects[0].PaymentRequested?
  {
    var conf := ChainPaymentConf(CheckoutRequest(o, post, env, p), env.server, p.isPublicIp);
    var outcome, request := syspay.SendPayment(conf, e, p, reply);
    ret, effects := FinishCheckout(outcome, request.payload, o, env.thankYouUrl);
  }
}
