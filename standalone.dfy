/**
 * The plugin's standalone payment form, which works without WooCommerce: the
 * settings it stores, syspay__factory, the block's render callback and
 * syspay_init_function, which handles Syspay's redirect back to the site and the
 * form's AJAX submission.
 */
module Standalone {
  import opened Wrappers
  import opened Php
  import opened Runtime
  import opened Conf
  import opened Response
  import opened Outbound
  import opened Inbound
  import opened Sdk
  import opened Gateway

  // ---------------------------------------------------------------- settings

  const API_KEY := "syspay_form_api_key"
  const PASSPHRASE := "syspay_form_passphrase"
  const PUBLIC_KEY := "syspay_form_public_key"
  const SOURCE_ID := "syspay_form_source_id"
  const TEST_MODE := "syspay_is_test_mode"

  /** A submitted settings field; a missing one is null, which sanitize_text_field turns into "". */
  function InputField(input: map<string, string>, key: string): string {
    if key in input then input[key] else ""
  }

  /**
   * syspay_validate_plugin_settings($input): the four credential fields are
   * always written, sanitised; the test-mode flag is the sanitised input when
   * set and the integer 0 otherwise.
   */
  function ValidatePluginSettings(input: map<string, string>, p: Primitives): (out: map<string, Value>)
    ensures out.Keys == {API_KEY, PASSPHRASE, PUBLIC_KEY, SOURCE_ID, TEST_MODE}
    ensures TEST_MODE !in input ==> out[TEST_MODE] == Int(0)
  {
    map[
      API_KEY := Str(p.sanitize(InputField(input, API_KEY))),
      PASSPHRASE := Str(p.sanitize(InputField(input, PASSPHRASE))),
      PUBLIC_KEY := Str(p.sanitize(InputField(input, PUBLIC_KEY))),
      SOURCE_ID := Str(p.sanitize(InputField(input, SOURCE_ID))),
      TEST_MODE := if TEST_MODE in input then Str(p.sanitize(input[TEST_MODE])) else Int(0)]
  }

  /**
   * get_option('syspay_plugin_options'): the stored array, or None when the
   * option does not exist (get_option returns false).
   */
  type Options = Option<map<string, Value>>

  /**
   * syspay__get_option($name): `! empty($options) ? $options[$name] : ''`. A
   * key missing from a non-empty array reads as null.
   */
  function StoredOption(opts: Options, name: string): Value {
    if opts.None? || opts.value == map[] then Str("")
    else if name in opts.value then opts.value[name]
    else Null
  }

  // ---------------------------------------------------------------- syspay__factory

  /** What syspay__factory does with the stored options. */
  datatype FactoryDecision =
    | Declined                                       // returns false
    | Rejected                                       // new SyspaySDK throws 'Invalid MerchantConf'
    | Accepted(creds: Credentials, testMode: bool)   // returns the SDK

  /** The MerchantConf syspay__factory builds: each stored option trimmed. */
  function StandaloneCredentials(opts: Options): Credentials {
    Credentials(
      Trim(ToStr(StoredOption(opts, API_KEY))),
      Trim(ToStr(StoredOption(opts, PASSPHRASE))),
      Trim(ToStr(StoredOption(opts, PUBLIC_KEY))),
      Trim(ToStr(StoredOption(opts, SOURCE_ID))))
  }

  /** `1 === $is_test_mode || '1' === $is_test_mode`. */
  predicate StandaloneTestMode(opts: Options) {
    StoredOption(opts, TEST_MODE) == Int(1) || StoredOption(opts, TEST_MODE) == Str("1")
  }

  /** The three credentials syspay__factory tests with empty(). */
  predicate CredentialsStored(opts: Options) {
    Truthy(StoredOption(opts, API_KEY)) && Truthy(StoredOption(opts, PASSPHRASE)) &&
    Truthy(StoredOption(opts, PUBLIC_KEY))
  }

  function Decide(opts: Options): FactoryDecision {
    if !CredentialsStored(opts) then Declined
    else if !StandaloneCredentials(opts).IsValid() then Rejected
    else Accepted(StandaloneCredentials(opts), StandaloneTestMode(opts))
  }

  /**
   * syspay__factory declines exactly when one of api key, passphrase and public
   * key is empty in PHP's sense (in particular when nothing is stored), and only
   * the integer 1 or the string "1" switch on test mode, not the gateway's 'yes'
   * nor true.
   */
  lemma DecideSpec(opts: Options)
    ensures Decide(opts).Declined? <==>
      !Truthy(StoredOption(opts, API_KEY)) || !Truthy(StoredOption(opts, PASSPHRASE)) ||
      !Truthy(StoredOption(opts, PUBLIC_KEY))
    ensures opts.None? ==> Decide(opts).Declined?
    ensures Decide(opts).Accepted? ==> Decide(opts).creds.IsValid()
    ensures Decide(opts).Accepted? && StoredOption(opts, TEST_MODE) in {Str("yes"), Bool(true), Int(0), Str("")} ==>
      !Decide(opts).testMode
  {
    TestModeFlags(opts);
    if Decide(opts).Accepted? {
      assert Decide(opts).testMode == StandaloneTestMode(opts);
    }
  }

  /** The stored test flags that do not switch test mode on. */
  lemma TestModeFlags(opts: Options)
    ensures StoredOption(opts, TEST_MODE) in {Str("yes"), Bool(true), Int(0), Str("")} ==> !StandaloneTestMode(opts)
  {
  }

  /** The credentials syspay__factory hands to the SDK are already trimmed. */
  lemma DecideTrims(opts: Options)
    ensures var c := StandaloneCredentials(opts);
      Trim(c.login) == c.login && Trim(c.passphrase) == c.passphrase && Trim(c.publicKey) == c.publicKey
  {
    TrimIdempotent(ToStr(StoredOption(opts, API_KEY)));
    TrimIdempotent(ToStr(StoredOption(opts, PASSPHRASE)));
    TrimIdempotent(ToStr(StoredOption(opts, PUBLIC_KEY)));
  }

  /**
   * A credential made of blanks passes syspay__factory's empty() test, so the
   * SDK constructor sees it trimmed to "" and throws.
   */
  lemma BlankCredentialRejected(opts: Options)
    requires CredentialsStored(opts)
    requires StoredOption(opts, PASSPHRASE).Str?
    requires forall k :: 0 <= k < |StoredOption(opts, PASSPHRASE).s| ==> IsTrimChar(StoredOption(opts, PASSPHRASE).s[k])
    ensures Decide(opts) == Rejected
  {
    TrimEmptyIff(StoredOption(opts, PASSPHRASE).s);
  }

  /** How a call of syspay__factory ends. */
  datatype Factory = NoSdk | Threw(failure: Failure) | Built(sdk: SyspaySdk)

  /** syspay__factory(). */
  method StandaloneFactory(opts: Options) returns (r: Factory)
    ensures r.NoSdk? <==> Decide(opts).Declined?
    ensures r.Threw? <==> Decide(opts).Rejected?
    ensures r.Threw? ==> r.failure == InvalidMerchantConf
    ensures r.Built? ==> fresh(r.sdk) && fresh(r.sdk.merchantConf) && r.sdk.lastQuery == None &&
                         Decide(opts) == Accepted(r.sdk.merchantConf.Snapshot(), r.sdk.testMode)
  {
    var apiKey := StoredOption(opts, API_KEY);
    var passphrase := StoredOption(opts, PASSPHRASE);
    var publicKey := StoredOption(opts, PUBLIC_KEY);
    if !Truthy(apiKey) || !Truthy(passphrase) || !Truthy(publicKey) {
      return NoSdk;
    }
    var made := NewSdk(StandaloneCredentials(opts), StandaloneTestMode(opts));
    if made.Err? {
      return Threw(made.error);
    }
    return Built(made.value);
  }

  // ---------------------------------------------------------------- the form block

  /**
   * The render callback's completeness test: array_map of `! empty($el) ||
   * is_numeric($el)` over the options, the source id and test flag unset, then
   * `in_array(false, $valid, true)`.
   */
  predicate FormComplete(options: map<string, Value>) {
    var valid := map k | k in options :: Truthy(options[k]) || IsNumeric(options[k]);
    false !in (valid - {SOURCE_ID, TEST_MODE}).Values
  }

  /** The form is complete exactly when every checked option is non-empty or numeric. */
  lemma FormCompleteIff(options: map<string, Value>)
    ensures FormComplete(options) <==>
      forall k :: k in options && k != SOURCE_ID && k != TEST_MODE ==> Truthy(options[k]) || IsNumeric(options[k])
  {
    var valid := map k | k in options :: Truthy(options[k]) || IsNumeric(options[k]);
    var checked := valid - {SOURCE_ID, TEST_MODE};
    if !FormComplete(options) {
      var k :| k in checked && checked[k] == false;
      assert k in options && k != SOURCE_ID && k != TEST_MODE;
    } else {
      forall k | k in options && k != SOURCE_ID && k != TEST_MODE
        ensures Truthy(options[k]) || IsNumeric(options[k])
      {
        assert checked[k] in checked.Values;
      }
    }
  }

  /**
   * Settings saved through the settings page are complete exactly when the
   * three sanitised credentials are not "" (a "0" counts as complete, being
   * numeric); the test flag never stops the form.
   */
  lemma ValidatedSettingsComplete(input: map<string, string>, p: Primitives)
    ensures FormComplete(ValidatePluginSettings(input, p)) <==>
      p.sanitize(InputField(input, API_KEY)) != "" && p.sanitize(InputField(input, PASSPHRASE)) != "" &&
      p.sanitize(InputField(input, PUBLIC_KEY)) != ""
  {
    var out := ValidatePluginSettings(input, p);
    FormCompleteIff(out);
    FilledStringIsNonEmpty(p.sanitize(InputField(input, API_KEY)));
    FilledStringIsNonEmpty(p.sanitize(InputField(input, PASSPHRASE)));
    FilledStringIsNonEmpty(p.sanitize(InputField(input, PUBLIC_KEY)));
    assert out[API_KEY] == Str(p.sanitize(InputField(input, API_KEY)));
    assert out[PASSPHRASE] == Str(p.sanitize(InputField(input, PASSPHRASE)));
    assert out[PUBLIC_KEY] == Str(p.sanitize(InputField(input, PUBLIC_KEY)));
  }

  /** The path of the tokenizer API the form page is given as its base URL. */
  const PUBLIC_API_PATH := "/api/v1/public/"

  /** What syspay_form_render_callback produces. */
  datatype Render =
    | NoOutput                                   // return; when nothing is stored
    | ConfigError                                // 'Error : Syspay payment form configuration not completed'
    | FormPage(baseUrl: string, publicKey: Value) // the payment form template and its two view variables
    | RenderRaised(failure: Failure)
    | RenderCrashed(fatal: Fatal)

  /**
   * syspay_form_render_callback as written: once the completeness test passes
   * it calls `$syspay->getUrl(...)` on whatever syspay__factory returned, false
   * included.
   */
  function RenderAsWritten(opts: Options): Render {
    if opts.None? || opts.value == map[] then NoOutput
    else if !FormComplete(opts.value) then ConfigError
    else
      match Decide(opts)
      case Declined => RenderCrashed(MethodCallOnFalse)
      case Rejected => RenderRaised(InvalidMerchantConf)
      case Accepted(_, testMode) => FormPage(Url(testMode, PUBLIC_API_PATH), StoredOption(opts, PUBLIC_KEY))
  }

  /**
   * The completeness test accepts a credential "0" (numeric) and says nothing
   * about a credential that is not stored at all, but syspay__factory declines
   * both; the page then dies calling getUrl on false.
   */
  lemma ZeroPassphraseCrashesRender()
    ensures var opts := Some(map[API_KEY := Str("key"), PASSPHRASE := Str("0"), PUBLIC_KEY := Str("pk")]);
      RenderAsWritten(opts) == RenderCrashed(MethodCallOnFalse)
    ensures var opts := Some(map[API_KEY := Str("key"), PUBLIC_KEY := Str("pk")]);
      RenderAsWritten(opts) == RenderCrashed(MethodCallOnFalse)
  {
    assert API_KEY[12] != PASSPHRASE[12] && API_KEY[12] != PUBLIC_KEY[12] && PASSPHRASE[13] != PUBLIC_KEY[13];
    var zero := map[API_KEY := Str("key"), PASSPHRASE := Str("0"), PUBLIC_KEY := Str("pk")];
    assert IsNumeric(Str("0")) by { assert IsDigit("0"[0]); }
    assert PASSPHRASE != API_KEY && PASSPHRASE != PUBLIC_KEY;
    assert PASSPHRASE in zero && zero[PASSPHRASE] == Str("0") && zero != map[];
    assert FormComplete(zero) by { FormCompleteIff(zero); }
    assert StoredOption(Some(zero), PASSPHRASE) == Str("0");
    var missing := map[API_KEY := Str("key"), PUBLIC_KEY := Str("pk")];
    assert PASSPHRASE !in missing;
    assert FormComplete(missing) by { FormCompleteIff(missing); }
    assert API_KEY in missing && missing != map[];
    assert StoredOption(Some(missing), PASSPHRASE) == Null;
    assert Decide(Some(missing)) == Declined;
  }

  /**
   * The render callback with the factory's false treated like an incomplete
   * configuration, which is what its completeness test is there for.
   */
  function RenderView(opts: Options): Render {
    if opts.None? || opts.value == map[] then NoOutput
    else if !FormComplete(opts.value) then ConfigError
    else
      match Decide(opts)
      case Declined => ConfigError
      case Rejected => RenderRaised(InvalidMerchantConf)
      case Accepted(_, testMode) => FormPage(Url(testMode, PUBLIC_API_PATH), StoredOption(opts, PUBLIC_KEY))
  }

  /**
   * The corrected callback never crashes; it differs from the code as written
   * only where that code crashes; and it shows the form only with a public key
   * that syspay__factory accepted, against the sandbox exactly in test mode.
   */
  lemma RenderViewCorrects(opts: Options)
    ensures !RenderView(opts).RenderCrashed?
    ensures RenderAsWritten(opts) != RenderView(opts) ==>
      RenderAsWritten(opts) == RenderCrashed(MethodCallOnFalse) && RenderView(opts) == ConfigError
    ensures RenderAsWritten(opts).RenderCrashed? <==>
      opts.Some? && opts.value != map[] && FormComplete(opts.value) && Decide(opts).Declined?
    ensures RenderView(opts).FormPage? ==>
      Decide(opts).Accepted? && Truthy(RenderView(opts).publicKey) &&
      RenderView(opts).baseUrl == (if Decide(opts).testMode then TEST_URL else LIVE_URL) + PUBLIC_API_PATH
  {
  }

  /** syspay_form_render_callback, with the factory's false handled. */
  method RenderCallback(opts: Options) returns (out: Render)
    ensures out == RenderView(opts)
  {
    if opts.None? || opts.value == map[] {
      return NoOutput;
    }
    if !FormComplete(opts.value) {
      return ConfigError;
    }
    var syspay := StandaloneFactory(opts);
    match syspay {
      case NoSdk => out := ConfigError;
      case Threw(f) => out := RenderRaised(f);
      case Built(sdk) => out := FormPage(sdk.GetUrl(PUBLIC_API_PATH), StoredOption(opts, PUBLIC_KEY));
    }
  }

  // ---------------------------------------------------------------- syspay_init_function

  /** ASCII lower case, as stristr folds. */
  function LowerAscii(c: char): char {
    if 'A' <= c <= 'Z' then (c as int + 32) as char else c
  }

  function Lower(s: string): (r: string)
    ensures |r| == |s|
  {
    seq(|s|, k requires 0 <= k < |s| => LowerAscii(s[k]))
  }

  /** The lower-case `needle` occurs in `s` at position i, ignoring case. */
  predicate FoldedAt(s: string, needle: string, i: int)
    requires 0 <= i && i + |needle| <= |s|
  {
    Lower(s[i..i + |needle|]) == needle
  }

  /** `stristr($s, $needle) !== false` for a lower-case needle. */
  predicate ContainsFolded(s: string, needle: string) {
    exists i :: 0 <= i && i + |needle| <= |s| && FoldedAt(s, needle, i)
  }

  /** Any spelling of the needle, surrounded by anything, is found. */
  lemma ContainsFoldedAnyCase(before: string, word: string, after: string, needle: string)
    requires Lower(word) == needle
    ensures ContainsFolded(before + word + after, needle)
  {
    var s := before + word + after;
    assert s[|before|..|before| + |needle|] == word;
    assert FoldedAt(s, needle, |before|);
  }

  const WC_API := "wc-api"
  const FORM_RETURN := "syspay-standalone-form-return"
  const RETURN_KEYS := ["result", "merchant", "checksum"]
  const POST_KEYS := ["syspay-token", "syspay-single-form-page", "syspay_name", "syspay_surname",
                      "syspay_email", "syspay_description", "syspay_amount"]

  /** $_SERVER['REQUEST_URI'], null (read as "") when unset. */
  function RequestUri(req: HttpRequest): string {
    if "REQUEST_URI" in req.server then req.server["REQUEST_URI"] else ""
  }

  /** The closure `$key_set`: `! empty($_GET[$k])` when $var is 'GET', else the same on $_POST. */
  predicate KeySet(req: HttpRequest, source: string, k: string) {
    var m := if source == "GET" then req.get else req.post;
    k in m && !EmptyString(m[k])
  }

  /** `$mandatory_isset($keys, $var)`: array_map of $key_set, then `! in_array(false, ..., true)`. */
  function MandatoryIsset(req: HttpRequest, keys: seq<string>, source: string): (r: bool)
    ensures r <==> forall i :: 0 <= i < |keys| ==> KeySet(req, source, keys[i])
  {
    var keysAreSet := seq(|keys|, i requires 0 <= i < |keys| => KeySet(req, source, keys[i]));
    assert forall i :: 0 <= i < |keys| ==> keysAreSet[i] == KeySet(req, source, keys[i]);
    false !in keysAreSet
  }

  /** The error global the return view shows; NoError is null. */
  datatype ReturnError =
    | NoError
    | Category(category: Value)
    | PaymentHasFailed   // 'Your payment has failed'

  /** $syspay_global_return_status and $syspay_global_return_error. */
  datatype ReturnGlobals = ReturnGlobals(status: Value, error: ReturnError)

  const CLEARED := ReturnGlobals(Null, NoError)

  /**
   * The return handler once the globals are reset: a postProcess exception is
   * swallowed; a non-empty result that is not an array reaches SyspayResponse's
   * array type hint; a reply with error_code calls getErrorMessage, whose
   * implode over the request-uuid header dies, since no sendToSyspay ran on this
   * request to capture headers; otherwise the status is isSuccess() and a
   * failure is explained by its category, if any.
   */
  function ReturnView(received: Result<Value, Failure>): Result<ReturnGlobals, Fatal> {
    match received
    case Err(_) => Ok(CLEARED)
    case Ok(v) =>
      if !Truthy(v) then Ok(CLEARED)
      else if !v.Arr? then Err(ArrayTypeError)
      else
        var r := SyspayResponse(v.entries);
        if r.HasError() then Err(ImplodeTypeError)
        else if r.IsSuccess() then Ok(ReturnGlobals(Bool(true), NoError))
        else if Truthy(r.FailureCategory()) then Ok(ReturnGlobals(Bool(false), Category(r.FailureCategory())))
        else Ok(ReturnGlobals(Bool(false), PaymentHasFailed))
  }

  /**
   * The page reports a payment status only for a query that carries the
   * merchant's login and the checksum of its `result`; a success status means
   * that very `result` decodes to a successful reply. A forged or incomplete
   * query leaves both globals null, and an authentic reply carrying error_code
   * ends in getErrorMessage's fatal TypeError.
   */
  lemma ReturnViewAuthentic(req: HttpRequest, c: Credentials, p: Primitives)
    ensures var g := ReturnView(PostProcess(req, c, p));
      && (!PostProcessAuthentic(req, c, p) ==> g == Ok(CLEARED))
      && (g.Ok? && g.value.status != Null ==> PostProcessAuthentic(req, c, p))
      && (g.Ok? && g.value.status == Bool(true) ==>
            var d := p.jsonDecode(p.base64Decode(GetParam(req, "result", p).value));
            d.Some? && d.value.Arr? && SyspayResponse(d.value.entries).IsSuccess() &&
            !SyspayResponse(d.value.entries).HasError())
      && (PostProcessAuthentic(req, c, p) ==>
            var d := p.jsonDecode(p.base64Decode(GetParam(req, "result", p).value));
            d.Some? && d.value.Arr? && SyspayResponse(d.value.entries).HasError() ==> g == Err(ImplodeTypeError))
  {
    PostProcessSpec(req, c, p);
  }

  /** What the form's AJAX submission and Syspay's later requests need from WordPress. */
  datatype FormEnv = FormEnv(
    homeUrl: string,       // home_url('/')
    returnLink: string,    // home_url(sanitize_text_field($_SERVER['REQUEST_URI']))
    locale: string,        // get_locale()
    amountCents: int,      // intval(100 * $payform_amount)
    draw: int)             // random_int(9999999, 99999999999)

  /** A submitted form field, "" when missing. */
  function PostField(post: map<string, string>, key: string): string {
    if key in post then post[key] else ""
  }

  /** The description sent: the form's, followed by " - Tel. " and the phone when one is given. */
  function FormDescription(post: map<string, string>, p: Primitives): string {
    var description := p.sanitize(PostField(post, "syspay_description"));
    if "syspay_phone" in post && !EmptyString(post["syspay_phone"]) &&
       !EmptyString(p.sanitize(post["syspay_phone"]))
    then description + " - Tel. " + p.sanitize(post["syspay_phone"])
    else description
  }

  const EMS_QUERY := "?" + FORM_RETURN + "=12"
  const REFERENCE_PREFIX := "SyspWpForm_"

  /** The PaymentConf the endpoint builds from the submission. */
  function FormRequest(post: map<string, string>, env: FormEnv, p: Primitives, server: map<string, string>): PaymentRequest {
    PaymentRequest(
      amount := Int(env.amountCents),
      description := Str(FormDescription(post, p)),
      extra := Str(""),
      returnUrl := Str(env.returnLink),
      emsUrl := Str(env.homeUrl + EMS_QUERY),
      tokenKey := Str(p.sanitize(PostField(post, "syspay-token"))),
      customerFirstName := Str(p.sanitize(PostField(post, "syspay_surname"))),
      customerLastName := Str(p.sanitize(PostField(post, "syspay_name"))),
      customerEmail := Str(p.sanitize(PostField(post, "syspay_email"))),
      customerLanguage := Str(if env.locale == "fr_FR" then "fr" else "en"),
      customerReference := Str(REFERENCE_PREFIX + IntToString(env.draw)),
      customerIP := CustomerIp(Str(""), server, p.isPublicIp))
  }

  /**
   * The notification URL handed to Syspay carries the form-return marker, so
   * Syspay's notification to it is only acknowledged (see InitFunction); the
   * customer reference is the prefix followed by the decimal draw, which reads
   * back as that draw; the phone reaches Syspay only inside the description.
   */
  lemma FormRequestProperties(post: map<string, string>, env: FormEnv, p: Primitives, server: map<string, string>)
    requires 9999999 <= env.draw <= 99999999999
    ensures var r := FormRequest(post, env, p, server);
      && r.emsUrl.Str? && ContainsFolded(r.emsUrl.s, FORM_RETURN)
      && r.customerReference.Str? && r.customerReference.s[..|REFERENCE_PREFIX|] == REFERENCE_PREFIX
      && DigitsValue(r.customerReference.s[|REFERENCE_PREFIX|..]) == env.draw
      && r.description.Str? && (("syspay_phone" !in post) ==> r.description.s == p.sanitize(PostField(post, "syspay_description")))
  {
    EmsUrlMarked(env.homeUrl);
    var reference := REFERENCE_PREFIX + IntToString(env.draw);
    assert reference[|REFERENCE_PREFIX|..] == Dec(env.draw);
    DecRoundTrip(env.draw);
  }

  /** The notification URL holds the form-return marker. */
  lemma EmsUrlMarked(home: string)
    ensures ContainsFolded(home + EMS_QUERY, FORM_RETURN)
  {
    assert Lower(FORM_RETURN) == FORM_RETURN;
    assert home + EMS_QUERY == (home + "?") + FORM_RETURN + "=12";
    ContainsFoldedAnyCase(home + "?", FORM_RETURN, "=12", FORM_RETURN);
  }

  /** The JSON the endpoint echoes before exit. */
  datatype Reply =
    | RedirectTo(url: Value)          // {"redirect": getActionUrl()}
    | ExceptionError(failure: Failure) // {"error": "Syspay Payment Exception: " . message}
    | FailedError(message: string)     // {"error": "Payment failed: Status ... category ..."}
    | Processed                        // {"success": "Your payment has been processed"}
    | Silent                           // nothing echoed

  /** How syspay_init_function ends. */
  datatype InitEnd =
    | PassedToWooCommerce        // the URI is a wc-api callback: return at once
    | EmsAcknowledged            // echo 'Syspay standalone form return received.'; exit
    | Returned                   // return: WordPress goes on serving the page
    | Exited(reply: Reply)       // a JSON reply, then exit
    | InitRaised(failure: Failure)
    | InitCrashed(fatal: Fatal)

  /** The endpoint's reply to what sendPayment returned. */
  function SubmissionEnd(outcome: SendOutcome): InitEnd {
    match outcome
    case Thrown(f) => Exited(ExceptionError(f))
    case NoResponse => InitCrashed(MethodCallOnNull)
    case NotAnArray(_) => InitCrashed(ArrayTypeError)
    case Received(r) =>
      if r.HasError() then Exited(ExceptionError(ApiError))
      else if r.IsRedirect() then Exited(RedirectTo(r.ActionUrl()))
      else if !r.IsSuccess() && r.IsCodeFinal() then Exited(FailedError("Payment failed: " + FailureNote(r)))
      else if r.IsSuccess() then Exited(Processed)
      else Exited(Silent)
  }

  /**
   * For a reply without error_code the endpoint emits exactly one of redirect,
   * error and success, checking redirect first, or nothing for a non-final
   * status; it agrees with process_response's three outcomes, and a redirect
   * reply is sent to the browser the same way process_payment does.
   */
  lemma SubmissionEndExactlyOne(r: SyspayResponse)
    requires !r.HasError()
    ensures SubmissionEnd(Received(r)).Exited?
    ensures var reply := SubmissionEnd(Received(r)).reply;
      && (reply.RedirectTo? <==> r.IsRedirect())
      && (reply.FailedError? <==> !r.IsRedirect() && ResponseOutcome(r) == Some(false))
      && (reply.Processed? <==> !r.IsRedirect() && ResponseOutcome(r) == Some(true))
      && (reply.Silent? <==> !r.IsRedirect() && ResponseOutcome(r) == None)
      && (reply.RedirectTo? ==> reply.url == r.ActionUrl())
  {
  }

  /** The return handler: the first half of syspay_init_function, once result, merchant and checksum are set. */
  method ReturnPhase(req: HttpRequest, opts: Options, p: Primitives)
    returns (stop: Option<InitEnd>, view: Option<ReturnGlobals>)
    ensures Decide(opts).Declined? ==> stop == Some(Returned) && view == None
    ensures Decide(opts).Rejected? ==> stop == Some(InitRaised(InvalidMerchantConf)) && view == None
    ensures Decide(opts).Accepted? ==>
      match ReturnView(PostProcess(req, Decide(opts).creds, p))
      case Ok(g) => stop == None && view == Some(g)
      case Err(f) => stop == Some(InitCrashed(f)) && view == None
  {
    var syspay := StandaloneFactory(opts);
    match syspay {
      case NoSdk =>
        return Some(Returned), None;
      case Threw(f) =>
        return Some(InitRaised(f)), None;
      case Built(sdk) =>
        var received := PostProcess(req, sdk.merchantConf.Snapshot(), p);
        match ReturnView(received) {
          case Err(f) => return Some(InitCrashed(f)), None;
          case Ok(g) => return None, Some(g);
        }
    }
  }

  /** The form endpoint: the second half of syspay_init_function, once every form field is set. */
  method FormPhase(req: HttpRequest, opts: Options, env: FormEnv, p: Primitives, e: Entropy, reply: Transport)
    returns (end: InitEnd, sent: Option<map<string, Value>>)
    ensures Decide(opts).Declined? ==> end == Returned && sent == None
    ensures Decide(opts).Rejected? ==> end == InitRaised(InvalidMerchantConf) && sent == None
    ensures Decide(opts).Accepted? ==>
      sent == Some(PaymentPayload(Decide(opts).creds, FormRequest(req.post, env, p, req.server),
                                  e.referenceTime, e.referenceSuffix)) &&
      end == SubmissionEnd(Deliver(p, reply))
  {
    var syspay := StandaloneFactory(opts);
    match syspay {
      case NoSdk =>
        return Returned, None;
      case Threw(f) =>
        return InitRaised(f), None;
      case Built(sdk) =>
        var creds := sdk.merchantConf.Snapshot();
        var want := FormRequest(req.post, env, p, req.server);
        end, sent := Submit(sdk, want, req.server, p, e, reply);
        assert sdk.merchantConf.Snapshot() == creds;
    }
  }

  /** Build the PaymentConf, send it, and answer the browser. */
  method Submit(sdk: SyspaySdk, want: PaymentRequest, server: map<string, string>,
                p: Primitives, e: Entropy, reply: Transport)
    returns (end: InitEnd, sent: Option<map<string, Value>>)
    requires want.amount.Int? && want.extra == Str("")
    requires want.customerIP == CustomerIp(Str(""), server, p.isPublicIp)
    modifies sdk`lastQuery
    ensures sent == Some(PaymentPayload(sdk.merchantConf.Snapshot(), want, e.referenceTime, e.referenceSuffix))
    ensures end == SubmissionEnd(Deliver(p, reply))
  {
    var conf := ChainPaymentConf(want, server, p.isPublicIp);
    var outcome, request := sdk.SendPayment(conf, e, p, reply);
    return SubmissionEnd(outcome), Some(request.payload);
  }

  /**
   * syspay_init_function(): a wc-api callback is left to WooCommerce and a
   * request carrying the form-return marker (Syspay's notification) is only
   * acknowledged. Then a return query sets the view globals, from an authentic
   * query only; then a complete form submission is sent to Syspay and answered
   * in JSON. `view` is the globals the return handler set, `sent` the payment
   * payload sent, if any.
   */
  method InitFunction(req: HttpRequest, opts: Options, env: FormEnv, p: Primitives, e: Entropy, reply: Transport)
    returns (end: InitEnd, view: Option<ReturnGlobals>, sent: Option<map<string, Value>>)
    ensures ContainsFolded(RequestUri(req), WC_API) ==> end == PassedToWooCommerce && view == None && sent == None
    ensures !ContainsFolded(RequestUri(req), WC_API) && KeySet(req, "GET", FORM_RETURN) ==>
      end == EmsAcknowledged && view == None && sent == None
    ensures view.Some? ==>
      MandatoryIsset(req, RETURN_KEYS, "GET") && Decide(opts).Accepted? &&
      ReturnView(PostProcess(req, Decide(opts).creds, p)) == Ok(view.value)
    ensures sent.Some? ==>
      MandatoryIsset(req, POST_KEYS, "POST") && Decide(opts).Accepted? &&
      sent.value == PaymentPayload(Decide(opts).creds, FormRequest(req.post, env, p, req.server),
                                   e.referenceTime, e.referenceSuffix) &&
      end == SubmissionEnd(Deliver(p, reply))
    ensures end.Exited? ==> sent.Some?
    ensures (!ContainsFolded(RequestUri(req), WC_API) && !KeySet(req, "GET", FORM_RETURN) &&
             MandatoryIsset(req, RETURN_KEYS, "GET")) ==>
      && (Decide(opts).Declined? ==> end == Returned && view == None && sent == None)
      && (Decide(opts).Rejected? ==> end == InitRaised(InvalidMerchantConf) && view == None && sent == None)
      && (Decide(opts).Accepted? ==>
            match ReturnView(PostProcess(req, Decide(opts).creds, p))
            case Ok(g) => view == Some(g)
            case Err(f) => end == InitCrashed(f) && view == None && sent == None)
    ensures (!ContainsFolded(RequestUri(req), WC_API) && !KeySet(req, "GET", FORM_RETURN) &&
             !MandatoryIsset(req, RETURN_KEYS, "GET") && MandatoryIsset(req, POST_KEYS, "POST")) ==>
      && view == None
      && (Decide(opts).Declined? ==> end == Returned && sent == None)
      && (Decide(opts).Rejected? ==> end == InitRaised(InvalidMerchantConf) && sent == None)
      && (Decide(opts).Accepted? ==>
            sent == Some(PaymentPayload(Decide(opts).creds, FormRequest(req.post, env, p, req.server),
                                        e.referenceTime, e.referenceSuffix)) &&
            end == SubmissionEnd(Deliver(p, reply)))
    ensures (!ContainsFolded(RequestUri(req), WC_API) && !KeySet(req, "GET", FORM_RETURN) &&
             !MandatoryIsset(req, RETURN_KEYS, "GET") && !MandatoryIsset(req, POST_KEYS, "POST")) ==>
      end == Returned && view == None && sent == None
  {
    if ContainsFolded(RequestUri(req), WC_API) {
      return PassedToWooCommerce, None, None;
    }
    if KeySet(req, "GET", FORM_RETURN) {
      return EmsAcknowledged, None, None;
    }
    view := None;
    if MandatoryIsset(req, RETURN_KEYS, "GET") {
      var stop;
      stop, view := ReturnPhase(req, opts, p);
      if stop.Some? {
        return stop.value, view, None;
      }
    }
    if !MandatoryIsset(req, POST_KEYS, "POST") {
      return Returned, view, None;
    }
    end, sent := FormPhase(req, opts, env, p, e, reply);
  }
}
