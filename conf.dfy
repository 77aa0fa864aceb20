/**
 * The SDK's builder objects: MerchantConf (credentials), PaymentConf and
 * RefundConf (request data). Each setter updates one private field in place and
 * returns the object itself, so that calls chain; here a setter's frame is that
 * one field. PHP getters are plain reads of the fields. Snapshot() gives an
 * object's state as a value, which the pure parts of the SDK consume.
 */
module Conf {
  import opened Php

  // ---------------------------------------------------------------- MerchantConf

  /** The state of a MerchantConf. An unset field (null in PHP) is "" here. */
  datatype Credentials = Credentials(login: string, passphrase: string, publicKey: string, sourceId: string)
  {
    /** MerchantConf::isValid: login, passphrase and public key are all non-empty in PHP's sense. */
    predicate IsValid() {
      !EmptyString(login) && !EmptyString(passphrase) && !EmptyString(publicKey)
    }
  }

  /** Validity needs exactly the three secrets; the source id plays no part. */
  lemma ValidityIgnoresSourceId(c: Credentials, sourceId: string)
    ensures c.(sourceId := sourceId).IsValid() == c.IsValid()
    ensures c.IsValid() <==> c.login !in {"", "0"} && c.passphrase !in {"", "0"} && c.publicKey !in {"", "0"}
  {
  }

  class MerchantConf {
    var login: string
    var passphrase: string
    var publicKey: string
    var sourceId: string

    constructor ()
      ensures Snapshot() == Credentials("", "", "", "")
    {
      login, passphrase, publicKey, sourceId := "", "", "", "";
    }

    function Snapshot(): Credentials
      reads this
    {
      Credentials(login, passphrase, publicKey, sourceId)
    }

    predicate IsValid()
      reads this
    {
      Snapshot().IsValid()
    }

    method SetLogin(val: string) returns (self: MerchantConf)
      modifies this`login
      ensures self == this && login == val
    {
      login := val;
      self := this;
    }

    method SetPassphrase(val: string) returns (self: MerchantConf)
      modifies this`passphrase
      ensures self == this && passphrase == val
    {
      passphrase := val;
      self := this;
    }

    method SetPublicKey(val: string) returns (self: MerchantConf)
      modifies this`publicKey
      ensures self == this && publicKey == val
    {
      publicKey := val;
      self := this;
    }

    method SetSourceId(val: string) returns (self: MerchantConf)
      modifies this`sourceId
      ensures self == this && sourceId == val
    {
      sourceId := val;
      self := this;
    }
  }

  // ---------------------------------------------------------------- PaymentConf

  /** The state of a PaymentConf; PHP leaves every field but `extra` null until set. */
  datatype PaymentRequest = PaymentRequest(
    amount: Value,
    description: Value,
    extra: Value,
    returnUrl: Value,
    emsUrl: Value,
    tokenKey: Value,
    customerFirstName: Value,
    customerLastName: Value,
    customerEmail: Value,
    customerLanguage: Value,
    customerReference: Value,
    customerIP: Value)

  /** The keys setCustomerIP reads from $_SERVER. */
  const REMOTE_ADDR := "REMOTE_ADDR"
  const HTTP_X_REAL_IP := "HTTP_X_REAL_IP"

  /** `$isPrivateIp($_SERVER[$key])`: the address when it is a valid public one, else false. */
  function PublicAddress(server: map<string, string>, key: string, isPublicIp: string -> bool): Value {
    if key in server && isPublicIp(server[key]) then Str(server[key]) else Bool(false)
  }

  /** The address setCustomerIP stores: a truthy explicit value, else REMOTE_ADDR, else X-Real-IP. */
  function CustomerIp(val: Value, server: map<string, string>, isPublicIp: string -> bool): Value {
    if Truthy(val) then val
    else
      var remote := PublicAddress(server, REMOTE_ADDR, isPublicIp);
      if Truthy(remote) then remote else PublicAddress(server, HTTP_X_REAL_IP, isPublicIp)
  }

  /**
   * The fallback chain: an explicit truthy value wins; otherwise the result is a
   * public REMOTE_ADDR, else a public X-Real-IP, else false. A proxy header is
   * consulted only when REMOTE_ADDR is missing, private or reserved.
   */
  lemma CustomerIpFallback(val: Value, server: map<string, string>, isPublicIp: string -> bool)
    ensures var ip := CustomerIp(val, server, isPublicIp);
      && (Truthy(val) ==> ip == val)
      && (!Truthy(val) ==>
            ip == Bool(false) ||
            (ip.Str? && isPublicIp(ip.s) &&
             ((REMOTE_ADDR in server && ip.s == server[REMOTE_ADDR]) ||
              (HTTP_X_REAL_IP in server && ip.s == server[HTTP_X_REAL_IP]))))
      && ((!Truthy(val) && REMOTE_ADDR in server && isPublicIp(server[REMOTE_ADDR]) &&
           !EmptyString(server[REMOTE_ADDR])) ==> ip == Str(server[REMOTE_ADDR]))
      && ((!Truthy(val) && (REMOTE_ADDR !in server || !isPublicIp(server[REMOTE_ADDR])) &&
           (HTTP_X_REAL_IP !in server || !isPublicIp(server[HTTP_X_REAL_IP]))) ==> ip == Bool(false))
  {
  }

  class PaymentConf {
    var amount: Value
    var description: Value
    var extra: Value
    var returnUrl: Value
    var emsUrl: Value
    var tokenKey: Value
    var customerFirstName: Value
    var customerLastName: Value
    var customerEmail: Value
    var customerLanguage: Value
    var customerReference: Value
    var customerIP: Value

    constructor ()
      ensures Snapshot() == PaymentRequest(Null, Null, Str(""), Null, Null, Null, Null, Null, Null, Null, Null, Null)
    {
      amount, description, extra := Null, Null, Str("");
      returnUrl, emsUrl, tokenKey := Null, Null, Null;
      customerFirstName, customerLastName, customerEmail := Null, Null, Null;
      customerLanguage, customerReference, customerIP := Null, Null, Null;
    }

    function Snapshot(): PaymentRequest
      reads this
    {
      PaymentRequest(amount, description, extra, returnUrl, emsUrl, tokenKey,
                     customerFirstName, customerLastName, customerEmail,
                     customerLanguage, customerReference, customerIP)
    }

    /** setAmount(int $val): amounts are integers (cents). */
    method SetAmount(val: int) returns (self: PaymentConf)
      modifies this`amount
      ensures self == this && amount == Int(val)
    {
      amount := Int(val);
      self := this;
    }

    method SetDescription(val: Value) returns (self: PaymentConf)
      modifies this`description
      ensures self == this && description == val
    {
      description := val;
      self := this;
    }

    method SetExtra(val: Value) returns (self: PaymentConf)
      modifies this`extra
      ensures self == this && extra == val
    {
      extra := val;
      self := this;
    }

    method SetReturnUrl(val: Value) returns (self: PaymentConf)
      modifies this`returnUrl
      ensures self == this && returnUrl == val
    {
      returnUrl := val;
      self := this;
    }

    method SetEmsUrl(val: Value) returns (self: PaymentConf)
      modifies this`emsUrl
      ensures self == this && emsUrl == val
    {
      emsUrl := val;
      self := this;
    }

    method SetTokenKey(val: Value) returns (self: PaymentConf)
      modifies this`tokenKey
      ensures self == this && tokenKey == val
    {
      tokenKey := val;
      self := this;
    }

    method SetCustomerFirstName(val: Value) returns (self: PaymentConf)
      modifies this`customerFirstName
      ensures self == this && customerFirstName == val
    {
      customerFirstName := val;
      self := this;
    }

    method SetCustomerLastName(val: Value) returns (self: PaymentConf)
      modifies this`customerLastName
      ensures self == this && customerLastName == val
    {
      customerLastName := val;
      self := this;
    }

    method SetCustomerEmail(val: Value) returns (self: PaymentConf)
      modifies this`customerEmail
      ensures self == this && customerEmail == val
    {
      customerEmail := val;
      self := this;
    }

    method SetCustomerLanguage(val: Value) returns (self: PaymentConf)
      modifies this`customerLanguage
      ensures self == this && customerLanguage == val
    {
      customerLanguage := val;
      self := this;
    }

    method SetCustomerReference(val: Value) returns (self: PaymentConf)
      modifies this`customerReference
      ensures self == this && customerReference == val
    {
      customerReference := val;
      self := this;
    }

    /**
     * setCustomerIP($val = ''): keeps a truthy $val, otherwise falls back to
     * REMOTE_ADDR and then to X-Real-IP, each kept only if it is a public address.
     */
    method SetCustomerIP(val: Value, server: map<string, string>, isPublicIp: string -> bool)
      returns (self: PaymentConf)
      modifies this`customerIP
      ensures self == this && customerIP == CustomerIp(val, server, isPublicIp)
    {
      var v := val;
      if !Truthy(v) {
        v := PublicAddress(server, REMOTE_ADDR, isPublicIp);
      }
      if !Truthy(v) {
        v := PublicAddress(server, HTTP_X_REAL_IP, isPublicIp);
      }
      customerIP := v;
      self := this;
    }
  }

  // ---------------------------------------------------------------- RefundConf

  /** The state of a RefundConf. */
  datatype RefundRequest = RefundRequest(
    paymentId: Value,
    amount: Value,
    description: Value,
    extra: Value,
    emsUrl: Value)

  class RefundConf {
    var paymentId: Value
    var amount: Value
    var description: Value
    var extra: Value
    var emsUrl: Value

    constructor ()
      ensures Snapshot() == RefundRequest(Null, Null, Null, Str(""), Null)
    {
      paymentId, amount, description, extra, emsUrl := Null, Null, Null, Str(""), Null;
    }

    function Snapshot(): RefundRequest
      reads this
    {
      RefundRequest(paymentId, amount, description, extra, emsUrl)
    }

    /** setPaymentId(int $val). */
    method SetPaymentId(val: int) returns (self: RefundConf)
      modifies this`paymentId
      ensures self == this && paymentId == Int(val)
    {
      paymentId := Int(val);
      self := this;
    }

    /** setAmount(int $val). */
    method SetAmount(val: int) returns (self: RefundConf)
      modifies this`amount
      ensures self == this && amount == Int(val)
    {
      amount := Int(val);
      self := this;
    }

    method SetDescription(val: Value) returns (self: RefundConf)
      modifies this`description
      ensures self == this && description == val
    {
      description := val;
      self := this;
    }

    method SetExtra(val: Value) returns (self: RefundConf)
      modifies this`extra
      ensures self == this && extra == val
    {
      extra := val;
      self := this;
    }

    method SetEmsUrl(val: Value) returns (self: RefundConf)
      modifies this`emsUrl
      ensures self == this && emsUrl == val
    {
      emsUrl := val;
      self := this;
    }
  }
}
