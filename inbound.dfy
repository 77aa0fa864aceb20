/**
 * What the SDK accepts from Syspay: the redirect back to the shop
 * (postProcess) and the server-to-server notification (emsProcess). Both
 * authenticate the raw payload with checkInput before anything decoded from it
 * is returned.
 */
module Inbound {
  import opened Wrappers
  import opened Php
  import opened Runtime
  import opened Conf

  /** The superglobals and the raw body a request handler sees. */
  datatype HttpRequest = HttpRequest(
    get: map<string, string>,
    post: map<string, string>,
    server: map<string, string>,
    body: string)

  /** getParam($argName): a non-empty GET value, else a non-empty POST value, sanitised. */
  function GetParam(req: HttpRequest, name: string, p: Primitives): (r: Result<string, Failure>)
    ensures r.Err? <==> (name !in req.get || req.get[name] == "") && (name !in req.post || req.post[name] == "")
    ensures r.Err? ==> r.error == MissingArgument(name)
    ensures name in req.get && req.get[name] != "" ==> r == Ok(p.sanitize(req.get[name]))
    ensures (name !in req.get || req.get[name] == "") && name in req.post && req.post[name] != "" ==>
      r == Ok(p.sanitize(req.post[name]))
  {
    if name in req.get && |req.get[name]| > 0 then Ok(p.sanitize(req.get[name]))
    else if name in req.post && |req.post[name]| > 0 then Ok(p.sanitize(req.post[name]))
    else Err(MissingArgument(name))
  }

  /** The checksum Syspay attaches to data: sha1(data . passphrase), in hexadecimal. */
  function Checksum(c: Credentials, p: Primitives, data: string): string {
    p.sha1Hex(data + c.passphrase)
  }

  /**
   * checkInput($login, $checksum, $data): the login is compared loosely with the
   * configured one, then the checksum strictly with sha1(data . passphrase).
   */
  function CheckInput(c: Credentials, p: Primitives, login: Value, checksum: Value, data: string): Result<(), Failure> {
    if !LooseEquals(login, c.login) then Err(InvalidMerchant)
    else if checksum != Str(Checksum(c, p, data)) then Err(ForgedQuery)
    else Ok(())
  }

  /**
   * Data passes exactly when the login matches and the checksum is the one
   * computed over that very data; the login is checked first. Syspay's own
   * query, carrying the configured login and sha1(data . passphrase), always
   * passes, and any other checksum is rejected as forged.
   */
  lemma CheckInputIff(c: Credentials, p: Primitives, login: Value, checksum: Value, data: string)
    ensures CheckInput(c, p, login, checksum, data).Ok? <==>
      LooseEquals(login, c.login) && checksum == Str(Checksum(c, p, data))
    ensures !LooseEquals(login, c.login) ==> CheckInput(c, p, login, checksum, data) == Err(InvalidMerchant)
    ensures LooseEquals(login, c.login) && checksum != Str(Checksum(c, p, data)) ==>
      CheckInput(c, p, login, checksum, data) == Err(ForgedQuery)
    ensures CheckInput(c, p, Str(c.login), Str(Checksum(c, p, data)), data).Ok?
  {
    LooseEqualsReflexive(c.login);
  }

  /** Any string loosely equals itself. */
  lemma LooseEqualsReflexive(s: string)
    ensures LooseEquals(Str(s), s)
  {
  }

  /** postProcess(): fetch merchant, result and checksum, verify, then decode. */
  function PostProcess(req: HttpRequest, c: Credentials, p: Primitives): Result<Value, Failure> {
    var merchant :- GetParam(req, "merchant", p);
    var result :- GetParam(req, "result", p);
    var checksum :- GetParam(req, "checksum", p);
    var _ :- CheckInput(c, p, Str(merchant), Str(checksum), result);
    match p.jsonDecode(p.base64Decode(result))
    case None => Err(PostProcessInvalidJson)
    case Some(v) => Ok(v)
  }

  /** Whether postProcess's three arguments are present and pass checkInput. */
  predicate PostProcessAuthentic(req: HttpRequest, c: Credentials, p: Primitives) {
    GetParam(req, "merchant", p).Ok? && GetParam(req, "result", p).Ok? && GetParam(req, "checksum", p).Ok? &&
    CheckInput(c, p, Str(GetParam(req, "merchant", p).value), Str(GetParam(req, "checksum", p).value),
               GetParam(req, "result", p).value).Ok?
  }

  /**
   * postProcess returns a value only for an authentic query, and that value is
   * the JSON decoded from the very (Base64) string the checksum covers; when the
   * query is authentic it throws only if that string does not decode.
   */
  lemma PostProcessSpec(req: HttpRequest, c: Credentials, p: Primitives)
    ensures var r := PostProcess(req, c, p);
      && (r.Ok? ==> PostProcessAuthentic(req, c, p) &&
                    p.jsonDecode(p.base64Decode(GetParam(req, "result", p).value)) == Some(r.value))
      && (PostProcessAuthentic(req, c, p) ==>
            (r.Err? <==> p.jsonDecode(p.base64Decode(GetParam(req, "result", p).value)).None?))
      && (PostProcessAuthentic(req, c, p) && r.Err? ==> r.error == PostProcessInvalidJson)
  {
  }

  /**
   * The arguments are fetched in the order merchant, result, checksum, so a
   * missing merchant is reported whatever else the query holds.
   */
  lemma PostProcessArgumentOrder(req: HttpRequest, c: Credentials, p: Primitives)
    ensures GetParam(req, "merchant", p).Err? ==> PostProcess(req, c, p) == Err(MissingArgument("merchant"))
    ensures GetParam(req, "merchant", p).Ok? && GetParam(req, "result", p).Err? ==>
      PostProcess(req, c, p) == Err(MissingArgument("result"))
    ensures GetParam(req, "merchant", p).Ok? && GetParam(req, "result", p).Ok? && GetParam(req, "checksum", p).Err? ==>
      PostProcess(req, c, p) == Err(MissingArgument("checksum"))
  {
  }

  /**
   * Authenticate, then decode: when the check fails, the outcome does not depend
   * on Base64 or JSON decoding at all.
   */
  lemma PostProcessChecksBeforeDecoding(req: HttpRequest, c: Credentials, p: Primitives,
                                        base64Decode: string -> string, jsonDecode: string -> Option<Value>)
    requires !PostProcessAuthentic(req, c, p)
    ensures PostProcess(req, c, p).Err?
    ensures PostProcess(req, c, p.(base64Decode := base64Decode, jsonDecode := jsonDecode)) == PostProcess(req, c, p)
  {
  }

  // ---------------------------------------------------------------- emsProcess

  /** A superglobal entry, or null when the key is not set. */
  function Lookup(m: map<string, string>, key: string): Value {
    if key in m then Str(m[key]) else Null
  }

  /** Whether emsProcess takes merchant and checksum from the query string. */
  predicate EmsCredentialsFromQuery(req: HttpRequest) {
    "merchant" in req.get && !EmptyString(req.get["merchant"])
  }

  /** Whether emsProcess takes the payload from the `result` query parameter. */
  predicate EmsBodyFromQuery(req: HttpRequest) {
    "result" in req.get && !EmptyString(req.get["result"])
  }

  /** The merchant and checksum emsProcess checks. */
  function EmsCredentials(req: HttpRequest): (Value, Value) {
    if EmsCredentialsFromQuery(req) then (Str(req.get["merchant"]), Lookup(req.get, "checksum"))
    else (Lookup(req.server, "HTTP_X_MERCHANT"), Lookup(req.server, "HTTP_X_CHECKSUM"))
  }

  /** The raw payload emsProcess checks. */
  function EmsBody(req: HttpRequest): string {
    if EmsBodyFromQuery(req) then req.get["result"] else req.body
  }

  /** The array emsProcess returns: the decoded payload, or null when it is not valid JSON. */
  function EmsDecoded(req: HttpRequest, p: Primitives): Value {
    var decoded := if EmsBodyFromQuery(req) then p.jsonDecode(p.base64Decode(req.get["result"])) else p.jsonDecode(req.body);
    match decoded
    case None => Null
    case Some(v) => v
  }

  /** emsProcess(): pick the inputs, check the raw body, return the decoded array. */
  function EmsProcess(req: HttpRequest, c: Credentials, p: Primitives): (r: Result<Value, Failure>)
    ensures r.Ok? <==> CheckInput(c, p, EmsCredentials(req).0, EmsCredentials(req).1, EmsBody(req)).Ok?
    ensures r.Ok? ==> r.value == EmsDecoded(req, p)
  {
    var (merchant, checksum) := EmsCredentials(req);
    var body := EmsBody(req);
    var decoded := EmsDecoded(req, p);
    var _ :- CheckInput(c, p, merchant, checksum, body);
    Ok(decoded)
  }

  /**
   * A notification is accepted only if its checksum is sha1 of the raw body
   * (the Base64 text of `result`, or the raw request body), never of the decoded
   * array; a rejected notification's outcome does not depend on decoding.
   */
  lemma EmsProcessChecksRawBody(req: HttpRequest, c: Credentials, p: Primitives,
                                base64Decode: string -> string, jsonDecode: string -> Option<Value>)
    ensures EmsProcess(req, c, p).Ok? ==>
      EmsCredentials(req).1 == Str(p.sha1Hex(EmsBody(req) + c.passphrase)) &&
      LooseEquals(EmsCredentials(req).0, c.login)
    ensures EmsProcess(req, c, p).Err? ==>
      EmsProcess(req, c, p.(base64Decode := base64Decode, jsonDecode := jsonDecode)) == EmsProcess(req, c, p)
  {
  }

  /**
   * Header-delivered notification (the form Syspay sends): X-Merchant carries the
   * login, X-Checksum the sha1 of the raw body; with no query parameters it is
   * accepted and its decoded body returned.
   */
  lemma EmsHeaderNotificationAccepted(c: Credentials, p: Primitives, body: string, post: map<string, string>)
    ensures var req := HttpRequest(map[], post,
                                   map["HTTP_X_MERCHANT" := c.login, "HTTP_X_CHECKSUM" := Checksum(c, p, body)], body);
      EmsProcess(req, c, p) == Ok(match p.jsonDecode(body) case None => Null case Some(v) => v)
  {
    LooseEqualsReflexive(c.login);
  }

  /**
   * The query string wins over headers as a whole: once GET merchant is set, a
   * valid X-Checksum header does not help when GET checksum is missing.
   */
  lemma EmsQueryMerchantNeedsQueryChecksum(req: HttpRequest, c: Credentials, p: Primitives)
    requires EmsCredentialsFromQuery(req) && "checksum" !in req.get
    ensures EmsProcess(req, c, p).Err?
  {
  }
}
