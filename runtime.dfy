/**
 * What the SDK takes from its PHP runtime without this model looking inside:
 * the hash and encoding functions, json_decode, WordPress' sanitize_text_field
 * and filter_var's public-address test. They are carried as function values, so
 * every property proved here holds whatever these functions compute. Also the
 * exceptions the SDK throws and the fatal errors PHP raises on the plugin's paths.
 */
module Runtime {
  import opened Wrappers
  import opened Php

  datatype Primitives = Primitives(
    /** sha1($s): the lowercase hexadecimal digest (FIPS 180-4). */
    sha1Hex: string -> string,
    /** sha1($s, true): the 20 raw digest bytes. */
    sha1Raw: string -> string,
    /** base64_encode (RFC 4648 section 4). */
    base64Encode: string -> string,
    /** base64_decode. */
    base64Decode: string -> string,
    /** json_decode($s, true); None when json_last_error() != JSON_ERROR_NONE. */
    jsonDecode: string -> Option<Value>,
    /** WordPress sanitize_text_field. */
    sanitize: string -> string,
    /** filter_var($a, FILTER_VALIDATE_IP, FILTER_FLAG_NO_PRIV_RANGE | FILTER_FLAG_NO_RES_RANGE) !== false. */
    isPublicIp: string -> bool
  )

  /** The exceptions (class Exception) the SDK and the plugin throw, by message. */
  datatype Failure =
    | InvalidMerchantConf                      // 'Invalid MerchantConf'
    | TransportError(errno: int, message: string) // curl_error / curl_errno
    | InvalidJsonResponse(body: string)        // 'Invalid JSON in Syspay response: ...'
    | MissingArgument(name: string)            // 'Missing post process argument: ...'
    | InvalidMerchant                          // 'Invalid post process merchant'
    | ForgedQuery                              // 'Syspay forge post-process query'
    | PostProcessInvalidJson                   // 'Post-process invalid JSON'
    | ApiError                                 // getErrorMessage() of a reply carrying error_code, after sendToSyspay

  /** PHP Errors (not Exceptions): no `catch (Exception ...)` on these paths stops them. */
  datatype Fatal =
    | MethodCallOnNull      // `$response->hasError()` when sendPayment returned null
    | MethodCallOnFalse     // `$syspay->getUrl()` when syspay__factory returned false
    | ArrayTypeError        // SyspayResponse::__construct(array $data) given a non-array
    | ImplodeTypeError      // getErrorMessage's implode(' ', null) when no X-Syspay-Request-Uuid header was captured
}
