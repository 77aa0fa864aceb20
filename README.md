# Syspay for WooCommerce: a Dafny model of the SDK and the payment decisions

This project models the server side of the Syspay payment plugin. It covers
two parts.

The first is the vendored Syspay PHP SDK, `vendor/syspay/SyspaySDK.php`:
- the `MerchantConf`, `PaymentConf` and `RefundConf` builders;
- the `SyspaySDK` object, with its URLs, test mode, X-Wsse header and payment
  and refund payloads;
- the inbound checks `getParam`, `checkInput`, `postProcess` and `emsProcess`;
- `getRandomIp`;
- the `SyspayResponse` classifier and `PaymentStatus::isCodeFinal`.

The second is the decision logic of `syspay.php`:
- the WooCommerce gateway's SDK factory, billing-phone normalisation,
  `process_payment` and `process_response`;
- the standalone payment form: settings validation, `syspay__factory`, the
  block's render callback and `syspay_init_function`, which handles the return
  query and the AJAX form submission.

## How PHP is modelled

PHP values are a small datatype (`Php.Value`: null, bool, int, string, array).
Several PHP rules are written out, because the plugin's behaviour depends on
them:
- truthiness and `empty()` (the string "0" is empty);
- PHP 8 loose `==`;
- `array_filter` (shallow);
- `trim`'s default characters;
- `explode` and `implode`.

The hash and encoding functions are fields of `Runtime.Primitives`, so every
property holds whatever they compute:
- SHA-1 (FIPS 180-4) and Base64 (section 4 of RFC 4648);
- `json_decode`, WordPress' `sanitize_text_field`, and `filter_var`'s
  public-address test.

Clock and randomness readings are parameters:
- `Outbound.Entropy` for the header nonce, the time and the reference suffix;
- a sequence of draws for `getRandomIp`;
- `FormEnv.draw` for `random_int`.

The builders and the SDK object are classes whose setters update one field and
return the object. Setters have field-granular frames. `Snapshot()` turns an
object's state into a value that the pure functions read.

WooCommerce calls that change the order, cart, stock or session are recorded
as a sequence of `Gateway.Effect` values, in the order they happen.

An uncaught PHP `Error` is a `Runtime.Fatal` outcome, kept apart from
exceptions (`Runtime.Failure`). There are four such errors:
- a method called on the `null` that `sendPayment` returns for a falsy reply;
- a method called on the `false` that `syspay__factory` returns;
- `SyspayResponse`'s `array` type hint given a non-array;
- `getErrorMessage`'s `implode(' ', null)` when no request-uuid header was captured, as on the standalone return path, where no `sendToSyspay` has run.

## Model

| member | source | states |
|---|---|---|
| Conf.ValidityIgnoresSourceId | vendor/syspay/SyspaySDK.php:386-389 | A MerchantConf is valid exactly when login, passphrase and public key are each neither "" nor "0"; the source id never affects validity |
| Conf.MerchantConf.constructor | vendor/syspay/SyspaySDK.php:360-385 | A new MerchantConf holds empty credentials (and so is invalid) |
| Conf.MerchantConf.SetLogin | vendor/syspay/SyspaySDK.php:394-398 | Stores the login, changes no other field, returns the same object |
| Conf.MerchantConf.SetPassphrase | vendor/syspay/SyspaySDK.php:404-408 | Stores the passphrase, changes no other field, returns the same object |
| Conf.MerchantConf.SetPublicKey | vendor/syspay/SyspaySDK.php:414-418 | Stores the public key, changes no other field, returns the same object |
| Conf.MerchantConf.SetSourceId | vendor/syspay/SyspaySDK.php:424-428 | Stores the source id, changes no other field, returns the same object |
| Conf.PaymentConf.constructor | vendor/syspay/SyspaySDK.php:434-479 | A new PaymentConf has extra "" and every other field null |
| Conf.PaymentConf.SetAmount | vendor/syspay/SyspaySDK.php:484-488 | Stores the integer amount only, returns the same object |
| Conf.PaymentConf.SetDescription | vendor/syspay/SyspaySDK.php:494-498 | Stores the description only, returns the same object |
| Conf.PaymentConf.SetExtra | vendor/syspay/SyspaySDK.php:503-507 | Stores extra only, returns the same object |
| Conf.PaymentConf.SetReturnUrl | vendor/syspay/SyspaySDK.php:512-516 | Stores the return URL only, returns the same object |
| Conf.PaymentConf.SetEmsUrl | vendor/syspay/SyspaySDK.php:521-525 | Stores the notification URL only, returns the same object |
| Conf.PaymentConf.SetTokenKey | vendor/syspay/SyspaySDK.php:530-534 | Stores the card token only, returns the same object |
| Conf.PaymentConf.SetCustomerFirstName | vendor/syspay/SyspaySDK.php:540-544 | Stores the first name only, returns the same object |
| Conf.PaymentConf.SetCustomerLastName | vendor/syspay/SyspaySDK.php:549-553 | Stores the last name only, returns the same object |
| Conf.PaymentConf.SetCustomerEmail | vendor/syspay/SyspaySDK.php:558-562 | Stores the e-mail only, returns the same object |
| Conf.PaymentConf.SetCustomerLanguage | vendor/syspay/SyspaySDK.php:567-571 | Stores the language only, returns the same object |
| Conf.PaymentConf.SetCustomerReference | vendor/syspay/SyspaySDK.php:576-580 | Stores the customer reference only, returns the same object |
| Conf.PaymentConf.SetCustomerIP | vendor/syspay/SyspaySDK.php:585-600 | The step-by-step fallback stores exactly the address the chain CustomerIp defines (see CustomerIpFallback), and nothing else changes |
| Conf.CustomerIpFallback | vendor/syspay/SyspaySDK.php:585-600 | A truthy explicit value wins. Otherwise the result is a public REMOTE_ADDR, else a public X-Real-IP, else false. The proxy header is consulted only when REMOTE_ADDR is missing or not public |
| Conf.RefundConf.constructor | vendor/syspay/SyspaySDK.php:606-637 | A new RefundConf has extra "" and every other field null |
| Conf.RefundConf.SetPaymentId | vendor/syspay/SyspaySDK.php:642-646 | Stores the integer payment id only, returns the same object |
| Conf.RefundConf.SetAmount | vendor/syspay/SyspaySDK.php:651-655 | Stores the integer amount only, returns the same object |
| Conf.RefundConf.SetDescription | vendor/syspay/SyspaySDK.php:661-665 | Stores the description only (RefundPayloadShape shows it is never sent) |
| Conf.RefundConf.SetExtra | vendor/syspay/SyspaySDK.php:670-674 | Stores extra only (RefundPayloadShape shows it is never sent) |
| Conf.RefundConf.SetEmsUrl | vendor/syspay/SyspaySDK.php:679-683 | Stores the notification URL only, returns the same object |
| Sdk.SyspaySdk.constructor | vendor/syspay/SyspaySDK.php:45-51 | On a valid conf, the SDK holds that conf, starts in live mode and has no last query |
| Sdk.SyspaySdk.New | vendor/syspay/SyspaySDK.php:45-51 | Construction throws 'Invalid MerchantConf' exactly when the conf is invalid; otherwise a fresh live-mode SDK over that conf |
| Outbound.UrlIdentifiesMode | vendor/syspay/SyspaySDK.php:64-67 | getUrl(q) is the sandbox base followed by q exactly in test mode, and the live base followed by q otherwise; the query is recovered after the base |
| Sdk.SyspaySdk.EnableTestMode | vendor/syspay/SyspaySDK.php:72-75 | Sets test mode to true and changes nothing else |
| Outbound.ParseFormatWsse | vendor/syspay/SyspaySDK.php:88-94 | The X-Wsse header line is unambiguous: parsing a formatted header returns its four fields |
| Outbound.WsseHeaderAccepted | vendor/syspay/SyspaySDK.php:80-98 | A generated header is accepted by a receiver that knows the credentials. Acceptance means decoding the nonce and recomputing Base64(SHA-1(nonce ++ created ++ password)), the UsernameToken PasswordDigest. Created reads back as the clock value |
| Outbound.PaymentPayloadFixedEntries | vendor/syspay/SyspaySDK.php:171-195 | The payment payload always carries flow API, currency EUR and interactive 1. The nested customer and payment_method arrays are kept unfiltered, falsy entries included |
| Outbound.PaymentPayloadReference | vendor/syspay/SyspaySDK.php:174 | With valid credentials the reference login ++ time ++ suffix is always sent |
| Outbound.PaymentPayloadOptionalEntries | vendor/syspay/SyspaySDK.php:171-195 | source, amount, description, extra, return_url and ems_url are sent, with their value, exactly when truthy (so the default extra "" never is), and no other key appears |
| Outbound.RefundPayloadShape | vendor/syspay/SyspaySDK.php:213-223 | The refund payload says description "refund" and currency EUR whatever the RefundConf holds, never carries extra, and sends payment_id, amount and ems_url exactly when truthy |
| Php.ArrayFilter | vendor/syspay/SyspaySDK.php:195 | array_filter keeps exactly the truthy entries, with their values |
| Outbound.Deliver | vendor/syspay/SyspaySDK.php:142-158 | The call throws exactly on a curl failure or invalid JSON. A response object is returned only for a non-empty JSON array |
| Outbound.DeliverObject | vendor/syspay/SyspaySDK.php:199-201 | A body decoding to a non-empty JSON object always yields a SyspayResponse over it |
| Sdk.SyspaySdk.SendPayment | vendor/syspay/SyspaySDK.php:167-202 | Records the filtered payment payload as lastQuery (nothing else changes), sends it to the payment endpoint of the current mode with the merchant's X-Wsse header, and ends as Deliver says |
| Sdk.SyspaySdk.SendRefund | vendor/syspay/SyspaySDK.php:209-227 | Sends the filtered refund payload to the refund endpoint of the current mode with the merchant's X-Wsse header, and ends as Deliver says; no state changes |
| Inbound.GetParam | vendor/syspay/SyspaySDK.php:233-243 | A non-empty GET value wins over a non-empty POST value, each sanitised; 'Missing post process argument' exactly when both are absent or empty |
| Inbound.CheckInputIff | vendor/syspay/SyspaySDK.php:313-323 | Input passes exactly when the login loosely equals the configured one and the checksum is exactly sha1(data ++ passphrase). The login is checked first. Syspay's own query always passes |
| Inbound.PostProcessSpec | vendor/syspay/SyspaySDK.php:249-266 | postProcess returns a value only for an authentic query, and that value is the JSON decoded from the very Base64 string the checksum covers. An authentic query throws only when that string does not decode |
| Inbound.PostProcessArgumentOrder | vendor/syspay/SyspaySDK.php:252-254 | Arguments are required in the order merchant, result, checksum |
| Inbound.PostProcessChecksBeforeDecoding | vendor/syspay/SyspaySDK.php:256-259 | A query that fails the check is rejected whatever Base64 and JSON decoding would produce |
| Inbound.EmsProcess | vendor/syspay/SyspaySDK.php:272-308 | The notification is accepted exactly when the check passes on the chosen merchant, checksum and raw body; it then returns the decoded payload |
| Inbound.EmsProcessChecksRawBody | vendor/syspay/SyspaySDK.php:275-306 | An accepted notification's checksum is sha1 of the raw body (the Base64 `result` text or the request body), never of the decoded array; a rejection does not depend on decoding |
| Inbound.EmsHeaderNotificationAccepted | vendor/syspay/SyspaySDK.php:280-307 | A header-delivered notification with X-Merchant = login and X-Checksum = sha1(body ++ passphrase) is accepted and its decoded body returned |
| Inbound.EmsQueryMerchantNeedsQueryChecksum | vendor/syspay/SyspaySDK.php:275-279 | Once GET merchant is set, the checksum comes from GET too, so a missing GET checksum is rejected whatever the headers say |
| Sdk.DottedQuadSplits | vendor/syspay/SyspaySDK.php:353 | The generated address splits back on '.' into the four octets' decimal notations |
| Sdk.GetRandomIp | vendor/syspay/SyspaySDK.php:337-354 | Returns the first draw off the skip list (reserved, plus private when publicOnly) followed by the three other octets, dot-joined; no address exactly when every draw is skipped |
| Response.SyspayResponse.Get | vendor/syspay/SyspaySDK.php:698-704 | get returns false for an absent or null key, the stored value otherwise, and never null |
| Response.IsFinalCodeIff | vendor/syspay/SyspaySDK.php:788-798 | A code is final exactly when it is SUCCESS, FAILED, CANCELLED, ERROR or TIMED_OUT, or the boolean true under loose comparison. OPEN, REDIRECT, false and null are not final |
| Response.MissingStatusReadsFalse | vendor/syspay/SyspaySDK.php:698-738 | A missing or null status reads as false: neither redirect, success nor final |
| Response.IsRedirectIff | vendor/syspay/SyspaySDK.php:709-713 | isRedirect holds exactly for status REDIRECT, status OPEN with a truthy action_url, or status true |
| Response.HasErrorIff | vendor/syspay/SyspaySDK.php:750-753 | hasError holds exactly when the reply carries a truthy error_code, which is then what get returns |
| Response.IsSuccessIff | vendor/syspay/SyspaySDK.php:730-733 | isSuccess holds exactly for status SUCCESS or status true |
| Response.SuccessIsFinal | vendor/syspay/SyspaySDK.php:730-738 | Every successful response is final |
| Response.StringStatusClasses | vendor/syspay/SyspaySDK.php:709-738 | For a string status a redirect is neither successful nor final, OPEN is never final, and the final failures are exactly FAILED, CANCELLED, ERROR and TIMED_OUT |
| Response.TrueStatusIsEverything | vendor/syspay/SyspaySDK.php:709-738 | A status of boolean true is at once redirect, success and final under loose comparison |
| Gateway.GatewayCredentialsTrimmed | syspay.php:245-250 | The gateway trims its options, so a whitespace-only api key makes the merchant conf invalid |
| Gateway.SyspaySdkFactory | syspay.php:245-258 | Throws 'Invalid MerchantConf' exactly when the trimmed options are invalid. Otherwise a fresh SDK holds them, in test mode exactly when the testmode option is 'yes' |
| Gateway.NewSdk | syspay.php:246-256 | The conf-then-SDK-then-test-mode sequence fails exactly on invalid credentials, and otherwise yields an SDK holding them in the requested mode |
| Gateway.ReplacePlus | syspay.php:294 | str_replace('+', '00', s) leaves no '+', is the identity without '+', and yields digits exactly when s holds only digits and '+' |
| Gateway.NormalizePhone | syspay.php:293-298 | An accepted phone matches ^[0-9]{7,15}$ (one trailing newline allowed, as PCRE's `$` allows) and holds no '+' |
| Gateway.NormalizePhoneProperties | syspay.php:293-298 | A matching phone is kept unchanged. Normalising an accepted phone again changes nothing. A phone with any character other than digits, '+' and a final newline is rejected, whether that character comes before the last position or is the last one |
| Gateway.InternationalPrefix | syspay.php:293-298 | "+" followed by 5 to 13 digits is accepted as "00" and the digits |
| Gateway.ResponseOutcomeThreeWay | syspay.php:428-452 | Three outcomes. Final but not successful marks the order failed with the failure note and adds that notice, and returns false. Success completes the payment, then empties the cart, and returns true. A non-final status changes no order status and returns nothing. For string statuses: FAILED/CANCELLED/ERROR/TIMED_OUT, SUCCESS, and every other string. The transaction id is saved first in every case |
| Gateway.ProcessResponse | syspay.php:428-452 | Returns the three-way outcome and performs exactly its effects, in order |
| Gateway.ChainPaymentConf | syspay.php:302-313 | The setter chain yields a fresh PaymentConf holding exactly the requested fields, with the customer IP from the fallback chain |
| Gateway.FinishCheckout | syspay.php:315-364 | After the send: an exception or an error_code reply gives result 'error'; a null or non-array reply is a fatal error. Otherwise the session is set and stock reduced first. A redirect then gives 'success' with the action URL; only a non-redirect goes through process_response |
| Gateway.Checkout | syspay.php:300-364 | The order's payment is sent with the SDK's credentials and finishes as FinishCheckout states |
| Gateway.CheckPhone | syspay.php:293-298 | The phone check passes exactly when the phone, or the phone with '+' rewritten to "00", matches the pattern, which is when NormalizePhone accepts it |
| Gateway.ProcessPayment | syspay.php:264-365 | Every early exit comes before any SDK call. A missing order or token returns 'error'. Invalid settings throw. A phone that does not normalise returns null. A payment is sent exactly when all checks pass, built from the order, and the call ends as CheckoutTail states |
| Standalone.ValidatePluginSettings | syspay.php:661-673 | Always writes the four credential keys and the test flag, and the flag is 0 when the input lacks it |
| Standalone.DecideSpec | syspay.php:805-827 | syspay__factory returns false exactly when api key, passphrase or public key is empty (so when nothing is stored); an SDK it builds holds valid credentials; 'yes', true, 0 and "" do not enable test mode, only 1 or "1" do |
| Standalone.DecideTrims | syspay.php:815-819 | The credentials syspay__factory gives the SDK are trimmed: trimming them again changes nothing |
| Standalone.BlankCredentialRejected | syspay.php:812-821 | A blank-only passphrase passes the empty() test, is trimmed to "" and makes the SDK constructor throw |
| Standalone.StandaloneFactory | syspay.php:805-827 | Returns false, throws, or returns a fresh SDK exactly as the decision says, with the decided credentials and test mode |
| Standalone.FormCompleteIff | syspay.php:839-852 | The form is complete exactly when every option except the source id and the test flag is non-empty or numeric |
| Standalone.ValidatedSettingsComplete | syspay.php:661-673 | Settings saved through the settings page are complete exactly when the three sanitised credentials are not ""; the test flag never blocks |
| Standalone.ZeroPassphraseCrashesRender | syspay.php:833-886 | As written, options with passphrase "0", or without a passphrase key, pass the completeness test. syspay__factory then returns false, and the callback dies calling getUrl on it |
| Standalone.RenderViewCorrects | syspay.php:833-886 | The corrected callback never crashes, and differs from the code as written only where that crashes. It shows the form only with a public key the factory accepted, with the sandbox base URL exactly in test mode |
| Standalone.RenderCallback | syspay.php:833-886 | The callback method produces the corrected view |
| Standalone.ContainsFoldedAnyCase | syspay.php:892 | stristr finds the needle in any letter case, wherever it occurs |
| Standalone.MandatoryIsset | syspay.php:918-930 | $mandatory_isset(keys, src) holds exactly when every key is non-empty in GET (src 'GET') or POST (otherwise) |
| Standalone.ReturnViewAuthentic | syspay.php:932-980 | The page shows a status only for an authentic return query. A success status means that very `result` decodes to a successful reply without error_code. A forged or incomplete query leaves both globals null. An authentic reply carrying error_code reaches getErrorMessage and ends in its fatal TypeError |
| Standalone.FormRequestProperties | syspay.php:1007-1050 | The notification URL carries the form-return marker. The customer reference is SyspWpForm_ followed by the draw's decimal notation, which reads back as the draw. Without a phone the description is the form's own |
| Standalone.EmsUrlMarked | syspay.php:1012 | The notification URL given to Syspay contains the form-return marker, so Syspay's notification is only acknowledged |
| Standalone.SubmissionEndExactlyOne | syspay.php:1068-1096 | For a reply without error_code the endpoint emits exactly one of redirect, error or success, checking redirect first, or nothing for a non-final status. This agrees with process_response's three outcomes |
| Standalone.ReturnPhase | syspay.php:932-980 | With no factory the request is left alone, with an invalid conf it throws, and otherwise the globals are those of the return view of postProcess, or the request dies with its fatal error |
| Standalone.FormPhase | syspay.php:1016-1098 | With no factory nothing is sent. Otherwise the payload built from the submission is sent with the stored credentials, and the reply is answered as SubmissionEnd states |
| Standalone.Submit | syspay.php:1038-1098 | Builds the PaymentConf, sends it, and answers from the send's outcome |
| Standalone.InitFunction | syspay.php:890-1098 | A wc-api URI is left to WooCommerce and a form-return request is only acknowledged. On a return request (mandatory keys present, not wc-api, not form-return): a declined factory leaves the request alone, a rejected one throws Invalid MerchantConf, and an accepted one sets the globals from the return view of postProcess or dies with its fatal error. Return globals are set only from an authentic query with an accepted factory. On a complete form submission without return keys, a declined factory leaves the request alone, a rejected one throws Invalid MerchantConf, and an accepted one sends the payload built from the submission with the stored credentials and answers as SubmissionEnd states. A payment is sent only for a complete submission. Every JSON reply follows a send |

## Left out

- The cURL transport in `sendToSyspay` (vendor/syspay/SyspaySDK.php:105-141) is network I/O. Its reply is a `Transport` parameter, and only what the code does with it is modelled.
- Capturing response headers into `SyspaySDK::$responseHeaders` and the text of `getErrorMessage` are left out. After a send, a reply carrying error_code ends as the single exception `ApiError` (Gateway.CheckoutTail, Gateway.FinishCheckout, Standalone.SubmissionEnd); this assumes Syspay's reply carried an X-Syspay-Request-Uuid header, without which `implode(' ', null)` would be a fatal TypeError there too. On the standalone return path no send has run, so the header is never captured and such a reply ends in the fatal `ImplodeTypeError`.
- Php.Value has no float case, so a decoded reply holding a float (a status, error_code or amount such as `1.0`) is not modelled. Integer-keyed JSON arrays are not modelled either.
- Request parameters are strings (`map<string, string>`). A `$_GET` or `$_POST` entry that is an array (`?result[]=x`) is not modelled; in PHP 8, `strlen` or `base64_decode` on it throws a TypeError.
- PHP 7 comparison rules are not modelled. Php.LooseEquals follows PHP 8, where `0 == "SUCCESS"` is false; under PHP 7 it is true, so an integer 0 status would read as final and successful there.
- SHA-1, MD5, Base64, `json_decode`, `sanitize_text_field` and `filter_var` are parameters, not implementations. `rand`, `md5(rand())`, `random_int` and `time()` are parameters too.
- `ErrorCodes::getCodeMessage` is reference data with no behaviour beyond lookup, and is not part of this model.
- Debug logging, `error_log` and `print_r` are not modelled. `$debug` is private and never set, so it is always false; `getRandomIp` is modelled as a function of its own, and the customer IP always comes from `getCustomerIP`.
- Sdk.GetRandomIp: the do-while loop can in principle draw forever. The model takes a finite sequence of draws and returns None when all of them are skipped.
- Amounts are taken as integer cents. The float products `100 * $order->get_total()` and `intval(100 * $payform_amount)` are outside the model.
- Php.LooseEquals approximates PHP's numeric strings by plain digit strings. Signs, decimals, exponents and surrounding whitespace are not recognised as numeric.
- Standalone.StoredOption: the stored option is taken to be an array or absent. A credential stored as an array reads as "Array"; this is the model's choice, since PHP 8's `trim` on an array throws a TypeError and PHP 7's returns null.
- `sanitize_text_field(null)` for a missing settings field is taken as `sanitize_text_field("")`.
- Gateway.ProcessPayment: the normalised billing phone is checked but, as in the code, never sent to Syspay, so the model does not carry it further.
- `check_callback_response` (the WooCommerce callback), `process_refund`, `payment_fields`, the settings pages, hooks and block registration are outside the modelled core.
- WordPress I/O (notices, order status, stock, cart, session, `header()`, `echo` and `exit`) is recorded as effects or end states, not performed.
- The HTML template `includes/payment_form.php` and the JavaScript files are UI and are not part of this model.

## Findings

| source | as written | input that shows it | evidently intended | confidence | as-written member | corrected member |
|---|---|---|---|---|---|---|
| syspay.php:839-852, 879 | The render callback's completeness test accepts a numeric "0" credential, and says nothing about a credential key that is absent. `syspay__factory` declines both with `empty()` and returns false, and the callback then calls `$syspay->getUrl()` on false, a fatal error | stored options `{syspay_form_api_key: "key", syspay_form_passphrase: "0", syspay_form_public_key: "pk"}`, or the same without the passphrase key | show the "configuration not completed" message when the factory returns false | not executed | Standalone.ZeroPassphraseCrashesRender (over Standalone.RenderAsWritten) | Standalone.RenderViewCorrects (over Standalone.RenderView, used by Standalone.RenderCallback) |
