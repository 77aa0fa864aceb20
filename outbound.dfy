/**
 * What the SDK sends to Syspay: the API base URLs, the X-Wsse authentication
 * header (the PasswordDigest construction of section 3.1 of the OASIS
 * WS-Security UsernameToken Profile 1.1, with Created in Unix seconds), the
 * payment and refund payloads after array_filter, and how a transport reply
 * becomes a SyspayResponse or an exception.
 */
module Outbound {
  import opened Wrappers
  import opened Php
  import opened Runtime
  import opened Conf
  import opened Response

  const TEST_URL := "https://app-sandbox.syspay.com"
  const LIVE_URL := "https://app.syspay.com"
  const API_VERSION := "v2"
  const PAYMENT_PATH := "/api/" + API_VERSION + "/merchant/payment"
  const REFUND_PATH := "/api/" + API_VERSION + "/merchant/refund"

  /** getUrl($query): the sandbox or the live base URL, then the query. */
  function Url(testMode: bool, query: string): string {
    (if testMode then TEST_URL else LIVE_URL) + query
  }

  /**
   * The mode can be read off a URL: it starts with the sandbox base exactly in
   * test mode and with the live base exactly otherwise, and the query follows.
   */
  lemma UrlIdentifiesMode(testMode: bool, query: string)
    ensures HasPrefix(Url(testMode, query), TEST_URL) <==> testMode
    ensures HasPrefix(Url(testMode, query), LIVE_URL) <==> !testMode
    ensures Url(testMode, query)[|if testMode then TEST_URL else LIVE_URL|..] == query
  {
    var u := Url(testMode, query);
    if testMode {
      assert u[11] == '-' != LIVE_URL[11];
      assert u[..|LIVE_URL|] != LIVE_URL;
    } else {
      assert u[11] == '.' != TEST_URL[11];
      assert |u| < |TEST_URL| || u[..|TEST_URL|] != TEST_URL;
    }
  }

  /** md5(rand(), true) and time() for the header; time() and md5(rand(...)) for the reference. */
  datatype Entropy = Entropy(nonce: string, headerTime: nat, referenceTime: nat, referenceSuffix: string)

  // ---------------------------------------------------------------- X-Wsse header

  /** The four quoted fields of the X-Wsse header. */
  datatype WsseToken = WsseToken(login: string, digest: string, nonce: string, created: string)

  const LOGIN_PREFIX := "X-Wsse: AuthToken MerchantAPILogin=\""
  const DIGEST_SEP := "\", PasswordDigest=\""
  const NONCE_SEP := "\", Nonce=\""
  const CREATED_SEP := "\", Created=\""
  const CLOSING_QUOTE := "\""

  predicate NoQuote(s: string) {
    '"' !in s
  }

  /** The header line generateHeaders formats. */
  function FormatWsse(t: WsseToken): string {
    LOGIN_PREFIX + t.login + (DIGEST_SEP + t.digest + (NONCE_SEP + t.nonce + (CREATED_SEP + t.created + CLOSING_QUOTE)))
  }

  /** Base64(SHA-1(nonce ++ created ++ password)), with the raw 20-byte digest. */
  function PasswordDigest(p: Primitives, nonce: string, created: string, password: string): string {
    p.base64Encode(p.sha1Raw(nonce + created + password))
  }

  /** generateHeaders(), given the nonce and the clock reading it would draw. */
  function WsseHeader(p: Primitives, login: string, passphrase: string, nonce: string, created: nat): string {
    FormatWsse(WsseToken(login, PasswordDigest(p, nonce, Dec(created), passphrase), p.base64Encode(nonce), Dec(created)))
  }

  predicate HasPrefix(s: string, pre: string) {
    |pre| <= |s| && s[..|pre|] == pre
  }

  /** Splits s before its first double quote (or at its end). */
  function TakeUntilQuote(s: string): (r: (string, string))
    ensures r.0 + r.1 == s && NoQuote(r.0)
    ensures r.1 == [] || r.1[0] == '"'
    decreases |s|
  {
    if s == [] || s[0] == '"' then ([], s)
    else
      var (a, b) := TakeUntilQuote(s[1..]);
      ([s[0]] + a, b)
  }

  lemma {:induction false} TakeUntilQuoteConcat(x: string, y: string)
    requires NoQuote(x) && |y| > 0 && y[0] == '"'
    ensures TakeUntilQuote(x + y) == (x, y)
    decreases |x|
  {
    if x != [] {
      assert (x + y)[0] == x[0] && x[0] in x;
      assert (x + y)[1..] == x[1..] + y;
      TakeUntilQuoteConcat(x[1..], y);
      assert [x[0]] + x[1..] == x;
    } else {
      assert x + y == y;
    }
  }

  /** How a receiver reads the X-Wsse header back into its fields. */
  function ParseWsse(h: string): Option<WsseToken> {
    if !HasPrefix(h, LOGIN_PREFIX) then None
    else
      var (login, r1) := TakeUntilQuote(h[|LOGIN_PREFIX|..]);
      if !HasPrefix(r1, DIGEST_SEP) then None
      else
        var (digest, r2) := TakeUntilQuote(r1[|DIGEST_SEP|..]);
        if !HasPrefix(r2, NONCE_SEP) then None
        else
          var (nonce, r3) := TakeUntilQuote(r2[|NONCE_SEP|..]);
          if !HasPrefix(r3, CREATED_SEP) then None
          else
            var (created, r4) := TakeUntilQuote(r3[|CREATED_SEP|..]);
            if r4 == CLOSING_QUOTE then Some(WsseToken(login, digest, nonce, created)) else None
  }

  /** The header format is unambiguous: parsing a formatted header gives back its fields. */
  lemma ParseFormatWsse(t: WsseToken)
    requires NoQuote(t.login) && NoQuote(t.digest) && NoQuote(t.nonce) && NoQuote(t.created)
    ensures ParseWsse(FormatWsse(t)) == Some(t)
  {
    var r3 := CREATED_SEP + t.created + CLOSING_QUOTE;
    var r2 := NONCE_SEP + t.nonce + r3;
    var r1 := DIGEST_SEP + t.digest + r2;
    var h := LOGIN_PREFIX + t.login + r1;
    assert FormatWsse(t) == h;
    assert h[..|LOGIN_PREFIX|] == LOGIN_PREFIX;
    assert h[|LOGIN_PREFIX|..] == t.login + r1;
    TakeUntilQuoteConcat(t.login, r1);
    assert r1[..|DIGEST_SEP|] == DIGEST_SEP;
    assert r1[|DIGEST_SEP|..] == t.digest + r2;
    TakeUntilQuoteConcat(t.digest, r2);
    assert r2[..|NONCE_SEP|] == NONCE_SEP;
    assert r2[|NONCE_SEP|..] == t.nonce + r3;
    TakeUntilQuoteConcat(t.nonce, r3);
    assert r3[..|CREATED_SEP|] == CREATED_SEP;
    assert r3[|CREATED_SEP|..] == t.created + CLOSING_QUOTE;
    TakeUntilQuoteConcat(t.created, CLOSING_QUOTE);
  }

  /** Base64 output never contains a double quote (its alphabet is A-Z a-z 0-9 + / =). */
  ghost predicate QuoteFreeBase64(p: Primitives) {
    forall x :: NoQuote(p.base64Encode(x))
  }

  /**
   * The receiving side of UsernameToken PasswordDigest: decode the nonce,
   * recompute the digest over nonce ++ created ++ password and compare.
   */
  predicate WsseAccepts(p: Primitives, header: string, login: string, password: string) {
    match ParseWsse(header)
    case None => false
    case Some(t) =>
      t.login == login && IsNumericString(t.created) &&
      t.digest == PasswordDigest(p, p.base64Decode(t.nonce), t.created, password)
  }

  /**
   * A header generated with the merchant's credentials is accepted by a receiver
   * that knows them, and its Created field reads back as the clock value.
   */
  lemma WsseHeaderAccepted(p: Primitives, login: string, passphrase: string, nonce: string, created: nat)
    requires NoQuote(login) && QuoteFreeBase64(p)
    requires p.base64Decode(p.base64Encode(nonce)) == nonce
    ensures WsseAccepts(p, WsseHeader(p, login, passphrase, nonce, created), login, passphrase)
    ensures var t := ParseWsse(WsseHeader(p, login, passphrase, nonce, created));
      t.Some? && IsDigits(t.value.created) && DigitsValue(t.value.created) == created
  {
    var t := WsseToken(login, PasswordDigest(p, nonce, Dec(created), passphrase), p.base64Encode(nonce), Dec(created));
    assert NoQuote(t.digest) && NoQuote(t.nonce);
    assert NoQuote(t.created) by {
      assert forall k :: 0 <= k < |t.created| ==> IsDigit(t.created[k]);
    }
    ParseFormatWsse(t);
    DecRoundTrip(created);
  }

  // ---------------------------------------------------------------- payloads

  /** The reference sendPayment and sendRefund generate: login . time() . md5(rand(...)). */
  function Reference(c: Credentials, time: nat, suffix: string): string {
    c.login + Dec(time) + suffix
  }

  /** The nested customer array; array_filter does not descend into it. */
  function CustomerMap(req: PaymentRequest): map<string, Value> {
    map[
      "firstname" := req.customerFirstName,
      "lastname" := req.customerLastName,
      "email" := req.customerEmail,
      "language" := req.customerLanguage,
      "reference" := req.customerReference,
      "ip" := req.customerIP]
  }

  /** The payment map sendPayment builds, before array_filter. */
  function RawPaymentMap(c: Credentials, req: PaymentRequest, time: nat, suffix: string): map<string, Value> {
    map[
      "flow" := Str("API"),
      "source" := Str(c.sourceId),
      "reference" := Str(Reference(c, time, suffix)),
      "amount" := req.amount,
      "currency" := Str("EUR"),
      "description" := req.description,
      "extra" := req.extra,
      "return_url" := req.returnUrl,
      "ems_url" := req.emsUrl,
      "interactive" := Int(1),
      "customer" := Arr(CustomerMap(req)),
      "payment_method" := Arr(map["token_key" := req.tokenKey])]
  }

  /** The payment payload: array_filter of the raw map. */
  function PaymentPayload(c: Credentials, req: PaymentRequest, time: nat, suffix: string): map<string, Value> {
    ArrayFilter(RawPaymentMap(c, req, time, suffix))
  }

  /** The keys of the payment map whose presence depends on the request. */
  const OPTIONAL_PAYMENT_KEYS: set<string> := {"source", "amount", "description", "extra", "return_url", "ems_url"}

  /**
   * The payment payload always carries flow API, currency EUR, interactive 1 and
   * the customer and payment_method arrays unfiltered, falsy entries included.
   */
  lemma PaymentPayloadFixedEntries(c: Credentials, req: PaymentRequest, time: nat, suffix: string)
    ensures var m := PaymentPayload(c, req, time, suffix);
      && "flow" in m && m["flow"] == Str("API")
      && "currency" in m && m["currency"] == Str("EUR")
      && "interactive" in m && m["interactive"] == Int(1)
      && "customer" in m && m["customer"] == Arr(CustomerMap(req))
      && "payment_method" in m && m["payment_method"] == Arr(map["token_key" := req.tokenKey])
  {
    var raw := RawPaymentMap(c, req, time, suffix);
    assert Truthy(raw["customer"]) by { assert "ip" in CustomerMap(req); }
    assert Truthy(raw["payment_method"]) by { assert "token_key" in map["token_key" := req.tokenKey]; }
  }

  /** With valid credentials the generated reference is never filtered out. */
  lemma PaymentPayloadReference(c: Credentials, req: PaymentRequest, time: nat, suffix: string)
    requires c.IsValid()
    ensures var m := PaymentPayload(c, req, time, suffix);
      "reference" in m && m["reference"] == Str(c.login + Dec(time) + suffix)
  {
    var r := Reference(c, time, suffix);
    assert |r| >= 2 by { assert |c.login| >= 1; }
  }

  /**
   * Every other top-level entry is present, with the request's value, exactly
   * when that value is truthy: the default extra '' and an empty source id are
   * never sent, and nothing outside the twelve keys ever is.
   */
  lemma PaymentPayloadOptionalEntries(c: Credentials, req: PaymentRequest, time: nat, suffix: string)
    ensures var m := PaymentPayload(c, req, time, suffix);
      && ("source" in m <==> !EmptyString(c.sourceId))
      && ("amount" in m <==> Truthy(req.amount))
      && ("description" in m <==> Truthy(req.description))
      && ("extra" in m <==> Truthy(req.extra))
      && ("return_url" in m <==> Truthy(req.returnUrl))
      && ("ems_url" in m <==> Truthy(req.emsUrl))
      && (forall k :: k in m && k in OPTIONAL_PAYMENT_KEYS ==> m[k] == RawPaymentMap(c, req, time, suffix)[k])
      && m.Keys <= OPTIONAL_PAYMENT_KEYS + {"flow", "reference", "currency", "interactive", "customer", "payment_method"}
  {
  }

  /** The refund map sendRefund builds, before array_filter. */
  function RawRefundMap(c: Credentials, req: RefundRequest, time: nat, suffix: string): map<string, Value> {
    map[
      "payment_id" := req.paymentId,
      "reference" := Str(Reference(c, time, suffix)),
      "amount" := req.amount,
      "currency" := Str("EUR"),
      "description" := Str("refund"),
      "extra" := Str(""),
      "ems_url" := req.emsUrl]
  }

  function RefundPayload(c: Credentials, req: RefundRequest, time: nat, suffix: string): map<string, Value> {
    ArrayFilter(RawRefundMap(c, req, time, suffix))
  }

  /**
   * The refund payload says "refund" whatever description and extra the
   * RefundConf holds, never carries an extra entry, and carries payment_id,
   * amount and ems_url exactly when they are truthy.
   */
  lemma RefundPayloadShape(c: Credentials, req: RefundRequest, time: nat, suffix: string, description: Value, extra: Value)
    ensures var m := RefundPayload(c, req, time, suffix);
      && m["description"] == Str("refund") && m["currency"] == Str("EUR")
      && "extra" !in m
      && m == RefundPayload(c, req.(description := description, extra := extra), time, suffix)
      && (c.IsValid() ==> "reference" in m)
      && ("payment_id" in m <==> Truthy(req.paymentId))
      && ("amount" in m <==> Truthy(req.amount))
      && ("ems_url" in m <==> Truthy(req.emsUrl))
      && m.Keys <= {"payment_id", "reference", "amount", "currency", "description", "ems_url"}
  {
    var raw := RawRefundMap(c, req, time, suffix);
    assert RawRefundMap(c, req.(description := description, extra := extra), time, suffix) == raw;
    assert raw.Keys == {"payment_id", "reference", "amount", "currency", "description", "extra", "ems_url"};
    assert raw["description"] == Str("refund") && raw["currency"] == Str("EUR") && raw["extra"] == Str("");
    assert raw["payment_id"] == req.paymentId && raw["amount"] == req.amount && raw["ems_url"] == req.emsUrl;
    assert !Truthy(raw["extra"]);
    if c.IsValid() {
      var r := Reference(c, time, suffix);
      assert |r| >= 2 by { assert |c.login| >= 1; }
    }
  }

  // ---------------------------------------------------------------- the reply

  /** What curl_exec hands back: false (with curl's error) or the response body. */
  datatype Transport = CurlFailure(errno: int, message: string) | Body(text: string)

  /** How sendPayment / sendRefund end. */
  datatype SendOutcome =
    | Thrown(failure: Failure)          // an exception from sendToSyspay
    | NoResponse                        // the decoded body is falsy: the method returns null
    | NotAnArray(decoded: Value)        // truthy but not an array: SyspayResponse's array type hint raises a TypeError
    | Received(response: SyspayResponse)

  /** The tail of sendToSyspay and of sendPayment/sendRefund, given the transport's reply. */
  function Deliver(p: Primitives, reply: Transport): (r: SendOutcome)
    ensures r.Thrown? <==> reply.CurlFailure? || p.jsonDecode(reply.text).None?
    ensures r.Received? ==> reply.Body? && p.jsonDecode(reply.text) == Some(Arr(r.response.data)) && r.response.data != map[]
  {
    match reply
    case CurlFailure(errno, message) => Thrown(TransportError(errno, message))
    case Body(text) =>
      match p.jsonDecode(text)
      case None => Thrown(InvalidJsonResponse(text))
      case Some(v) =>
        if !Truthy(v) then NoResponse
        else if v.Arr? then Received(SyspayResponse(v.entries))
        else NotAnArray(v)
  }

  /** A body that decodes to a non-empty JSON object always yields a response. */
  lemma DeliverObject(p: Primitives, text: string, data: map<string, Value>)
    requires p.jsonDecode(text) == Some(Arr(data)) && data != map[]
    ensures Deliver(p, Body(text)) == Received(SyspayResponse(data))
  {
  }
}
