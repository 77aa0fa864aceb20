/**
 * The SyspaySDK object: built from a valid MerchantConf, it holds the test-mode
 * switch and the last payload sent, and sends payments and refunds. Also the
 * random test address generator getRandomIp.
 */
module Sdk {
  import opened Wrappers
  import opened Php
  import opened Runtime
  import opened Conf
  import opened Outbound

  /** What goes over the wire for one API call: the URL, the X-Wsse header line and the JSON map. */
  datatype OutboundRequest = OutboundRequest(url: string, wsse: string, payload: map<string, Value>)

  class SyspaySdk {
    const merchantConf: MerchantConf
    var testMode: bool
    /** lastQuery: the filtered map of the last sendPayment, or null. */
    var lastQuery: Option<map<string, Value>>

    /** new SyspaySDK($merchantConf), on the path where the conf is valid. */
    constructor (conf: MerchantConf)
      requires conf.IsValid()
      ensures merchantConf == conf && !testMode && lastQuery == None
    {
      merchantConf := conf;
      testMode := false;
      lastQuery := None;
    }

    /** new SyspaySDK($merchantConf): throws 'Invalid MerchantConf' exactly when the conf is invalid. */
    static method New(conf: MerchantConf) returns (r: Result<SyspaySdk, Failure>)
      ensures r.Err? <==> !conf.IsValid()
      ensures r.Err? ==> r.error == InvalidMerchantConf
      ensures r.Ok? ==> fresh(r.value) && r.value.merchantConf == conf && !r.value.testMode && r.value.lastQuery == None
    {
      if !conf.IsValid() {
        return Err(InvalidMerchantConf);
      }
      var sdk := new SyspaySdk(conf);
      return Ok(sdk);
    }

    function GetUrl(query: string): string
      reads this`testMode
    {
      Url(testMode, query)
    }

    /** enableTestMode(): switches to the sandbox and changes nothing else. */
    method EnableTestMode()
      modifies this`testMode
      ensures testMode
    {
      testMode := true;
    }

    /**
     * sendPayment($paymentConf): records the filtered payload as lastQuery, sends
     * it with a fresh X-Wsse header to the payment endpoint and turns the reply
     * into an outcome. Nothing but lastQuery changes.
     */
    method SendPayment(conf: PaymentConf, e: Entropy, p: Primitives, reply: Transport)
      returns (outcome: SendOutcome, request: OutboundRequest)
      modifies this`lastQuery
      ensures var creds := merchantConf.Snapshot();
        var payload := PaymentPayload(creds, conf.Snapshot(), e.referenceTime, e.referenceSuffix);
        && lastQuery == Some(payload)
        && request == OutboundRequest(Url(testMode, PAYMENT_PATH),
                                      WsseHeader(p, creds.login, creds.passphrase, e.nonce, e.headerTime),
                                      payload)
        && outcome == Deliver(p, reply)
    {
      var creds := merchantConf.Snapshot();
      var payload := PaymentPayload(creds, conf.Snapshot(), e.referenceTime, e.referenceSuffix);
      lastQuery := Some(payload);
      var header := WsseHeader(p, creds.login, creds.passphrase, e.nonce, e.headerTime);
      request := OutboundRequest(GetUrl(PAYMENT_PATH), header, payload);
      outcome := Deliver(p, reply);
    }

    /** sendRefund($refundConf): like sendPayment, to the refund endpoint, without recording lastQuery. */
    method SendRefund(conf: RefundConf, e: Entropy, p: Primitives, reply: Transport)
      returns (outcome: SendOutcome, request: OutboundRequest)
      ensures var creds := merchantConf.Snapshot();
        && request == OutboundRequest(Url(testMode, REFUND_PATH),
                                      WsseHeader(p, creds.login, creds.passphrase, e.nonce, e.headerTime),
                                      RefundPayload(creds, conf.Snapshot(), e.referenceTime, e.referenceSuffix))
        && outcome == Deliver(p, reply)
    {
      var creds := merchantConf.Snapshot();
      var payload := RefundPayload(creds, conf.Snapshot(), e.referenceTime, e.referenceSuffix);
      var header := WsseHeader(p, creds.login, creds.passphrase, e.nonce, e.headerTime);
      request := OutboundRequest(GetUrl(REFUND_PATH), header, payload);
      outcome := Deliver(p, reply);
    }
  }

  // ---------------------------------------------------------------- getRandomIp

  /**
   * Whether getRandomIp's skip list holds a first octet: the reserved list
   * 0, 100, 127, 169, 198, 203, 224, ..., 255 (the last 32 written as a range),
   * plus the private 10, 172 and 192 when publicOnly.
   */
  predicate Skipped(publicOnly: bool, a: int) {
    a in {0, 100, 127, 169, 198, 203} || 224 <= a <= 255 || (publicOnly && a in {10, 172, 192})
  }

  /** implode('.', $ip) over four octets. */
  function DottedQuad(a: nat, b: nat, c: nat, d: nat): string {
    Join([Dec(a), Dec(b), Dec(c), Dec(d)], '.')
  }

  /** A dotted quad splits back into the decimal notations of its four octets. */
  lemma DottedQuadSplits(a: nat, b: nat, c: nat, d: nat)
    ensures Split(DottedQuad(a, b, c, d), '.') == [Dec(a), Dec(b), Dec(c), Dec(d)]
    ensures forall k :: 0 <= k < 4 ==> IsNumericString(Split(DottedQuad(a, b, c, d), '.')[k])
  {
    var parts := [Dec(a), Dec(b), Dec(c), Dec(d)];
    forall i | 0 <= i < |parts|
      ensures '.' !in parts[i]
    {
      assert IsDigits(parts[i]);
    }
    SplitJoin(parts, '.');
  }

  /**
   * getRandomIp($publicOnly): draws the first octet until it is off the skip
   * list, then appends three more. `draws` are the successive rand(1, 255)
   * results; when every one of them is skipped the loop has not ended yet, which
   * is None here.
   */
  method GetRandomIp(publicOnly: bool, draws: seq<int>, b: int, c: int, d: int) returns (ip: Option<string>)
    requires forall i :: 0 <= i < |draws| ==> 1 <= draws[i] <= 255
    requires 0 <= b <= 255 && 0 <= c <= 255 && 0 <= d <= 255
    ensures ip.None? <==> forall i :: 0 <= i < |draws| ==> Skipped(publicOnly, draws[i])
    ensures ip.Some? ==>
      exists i :: (0 <= i < |draws| && !Skipped(publicOnly, draws[i]) &&
                   (forall j :: 0 <= j < i ==> Skipped(publicOnly, draws[j])) &&
                   ip.value == DottedQuad(draws[i], b, c, d))
  {
    var i := 0;
    while i < |draws| && Skipped(publicOnly, draws[i])
      invariant 0 <= i <= |draws|
      invariant forall j :: 0 <= j < i ==> Skipped(publicOnly, draws[j])
    {
      i := i + 1;
    }
    if i == |draws| {
      ip := None;
    } else {
      ip := Some(DottedQuad(draws[i], b, c, d));
    }
  }
}
