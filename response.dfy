/**
 * SyspayResponse: the decoded JSON object of an API reply and the predicates the
 * plugin branches on, with the status codes of PaymentStatus and TokenStatus.
 */
module Response {
  import opened Php

  const OPEN := "OPEN"
  const SUCCESS := "SUCCESS"
  const FAILED := "FAILED"
  const CANCELLED := "CANCELLED"
  const ERROR := "ERROR"
  const TIMED_OUT := "TIMED_OUT"
  /** TokenStatus::REDIRECT */
  const REDIRECT := "REDIRECT"

  /** The list PaymentStatus::isCodeFinal searches. */
  const FINAL_CODES: seq<string> := [SUCCESS, FAILED, CANCELLED, ERROR, TIMED_OUT]

  /** PaymentStatus::isCodeFinal($code): loose in_array over the final codes. */
  predicate IsFinalCode(code: Value) {
    InArray(code, FINAL_CODES)
  }

  /**
   * A code is final exactly when it is one of the five final status strings,
   * or (loose comparison) the boolean true; OPEN and REDIRECT are not final.
   */
  lemma IsFinalCodeIff(code: Value)
    ensures IsFinalCode(code) <==>
      code == Bool(true) || code in {Str(SUCCESS), Str(FAILED), Str(CANCELLED), Str(ERROR), Str(TIMED_OUT)}
    ensures !IsFinalCode(Str(OPEN)) && !IsFinalCode(Str(REDIRECT))
    ensures !IsFinalCode(Bool(false)) && !IsFinalCode(Null)
  {
    InArrayWords(code, FINAL_CODES);
    InArrayWords(Str(OPEN), FINAL_CODES);
    InArrayWords(Str(REDIRECT), FINAL_CODES);
    InArrayWords(Bool(false), FINAL_CODES);
    InArrayWords(Null, FINAL_CODES);
  }

  /** A SyspayResponse wraps the array json_decode produced. */
  datatype SyspayResponse = SyspayResponse(data: map<string, Value>)
  {
    /** get($key): false unless the key is set to a non-null value. */
    function Get(key: string): (v: Value)
      ensures key !in data || data[key] == Null ==> v == Bool(false)
      ensures key in data && data[key] != Null ==> v == data[key]
      ensures v != Null
    {
      if key in data && data[key] != Null then data[key] else Bool(false)
    }

    function Status(): Value {
      Get("status")
    }

    function ActionUrl(): Value {
      Get("action_url")
    }

    /** getOrderId: the order id travels in the payment's description. */
    function OrderId(): Value {
      Get("description")
    }

    /** getTid: the Syspay transaction id. */
    function Tid(): Value {
      Get("id")
    }

    function FailureCategory(): Value {
      Get("failure_category")
    }

    predicate IsRedirect() {
      LooseEquals(Status(), REDIRECT) || (LooseEquals(Status(), OPEN) && Truthy(ActionUrl()))
    }

    predicate IsSuccess() {
      LooseEquals(Status(), SUCCESS)
    }

    predicate IsCodeFinal() {
      IsFinalCode(Status())
    }

    /** hasError(): the error_code entry, used as a condition. */
    predicate HasError() {
      Truthy(Get("error_code"))
    }
  }

  /** hasError holds exactly when the reply carries a truthy error_code. */
  lemma HasErrorIff(r: SyspayResponse)
    ensures r.HasError() <==> "error_code" in r.data && Truthy(r.data["error_code"])
    ensures r.HasError() ==> r.Get("error_code") == r.data["error_code"]
  {
  }

  /** The status an absent or null "status" entry reads as. */
  lemma MissingStatusReadsFalse(r: SyspayResponse)
    requires "status" !in r.data || r.data["status"] == Null
    ensures r.Status() == Bool(false)
    ensures !r.IsRedirect() && !r.IsSuccess() && !r.IsCodeFinal()
  {
    IsFinalCodeIff(r.Status());
  }

  /**
   * isRedirect holds exactly for status REDIRECT, or status OPEN with a truthy
   * action_url, or (loose comparison) status true.
   */
  lemma IsRedirectIff(r: SyspayResponse)
    ensures r.IsRedirect() <==>
      r.Status() == Str(REDIRECT) || r.Status() == Bool(true) ||
      (r.Status() == Str(OPEN) && Truthy(r.ActionUrl()))
  {
    LooseEqualsWord(r.Status(), REDIRECT);
    LooseEqualsWord(r.Status(), OPEN);
  }

  /** isSuccess holds exactly for status SUCCESS, or (loose comparison) status true. */
  lemma IsSuccessIff(r: SyspayResponse)
    ensures r.IsSuccess() <==> r.Status() == Str(SUCCESS) || r.Status() == Bool(true)
  {
    LooseEqualsWord(r.Status(), SUCCESS);
  }

  /** A successful response is always final. */
  lemma SuccessIsFinal(r: SyspayResponse)
    ensures r.IsSuccess() ==> r.IsCodeFinal()
  {
    IsSuccessIff(r);
    IsFinalCodeIff(r.Status());
  }

  /**
   * For a status that is a string (what the API sends), the classes are
   * disjoint: a redirect is neither successful nor final, and OPEN is never final.
   */
  lemma StringStatusClasses(r: SyspayResponse)
    requires r.Status().Str?
    ensures r.IsRedirect() ==> !r.IsSuccess() && !r.IsCodeFinal()
    ensures r.Status() == Str(OPEN) ==> !r.IsCodeFinal() && !r.IsSuccess()
    ensures r.IsCodeFinal() && !r.IsSuccess() <==> r.Status().s in {FAILED, CANCELLED, ERROR, TIMED_OUT}
  {
    IsRedirectIff(r);
    IsSuccessIff(r);
    IsFinalCodeIff(r.Status());
  }

  /** With status true every loose comparison succeeds: redirect, success and final at once. */
  lemma TrueStatusIsEverything(r: SyspayResponse)
    requires "status" in r.data && r.data["status"] == Bool(true)
    ensures r.IsRedirect() && r.IsSuccess() && r.IsCodeFinal()
  {
    IsFinalCodeIff(r.Status());
  }
}
