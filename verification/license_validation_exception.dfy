/**
 * The error the license client raises when validation fails: an HTTP status
 * code, a human-readable message and the server's response body (always a
 * PHP array), together with the rule that extracts the message from a
 * response body.
 */
module Exceptions {
  import opened Wrappers
  import opened PhpValues

  /** The message used when the body offers nothing better. */
  const DefaultMessage: string := "License validation failed."

  type PhpArray = v: Json | IsArray(v) witness JList([])

  datatype LicenseValidationException =
    LicenseValidationException(statusCode: int, message: string, responseBody: PhpArray)

  /** The constructor: a null response body is stored as the empty array. */
  function New(statusCode: int, message: string, responseBody: Option<PhpArray>): (e: LicenseValidationException)
    ensures e.statusCode == statusCode && e.message == message
    ensures responseBody.None? ==> e.responseBody == EmptyArray
    ensures responseBody.Some? ==> e.responseBody == responseBody.value
  {
    LicenseValidationException(statusCode, message, if responseBody.None? then EmptyArray else responseBody.value)
  }

  function GetResponseBody(e: LicenseValidationException): PhpArray {
    e.responseBody
  }

  /**
   * The message precedence over an array body: a non-empty `message` decides
   * (the default when it is not a string); otherwise a non-empty `error`
   * decides the same way; otherwise `errors` is used only when it is a
   * non-empty string; otherwise the default.
   */
  function ExtractMessage(body: Json): string {
    var message, error, errors := Offset(body, "message"), Offset(body, "error"), Offset(body, "errors");
    if !IsEmpty(message) then
      (if message.JString? then message.s else DefaultMessage)
    else if !IsEmpty(error) then
      (if error.JString? then error.s else DefaultMessage)
    else if !IsEmpty(errors) && errors.JString? then
      errors.s
    else
      DefaultMessage
  }

  /**
   * Normalises a status code and an arbitrary decoded body into the error:
   * the status is kept, a body that is not an array becomes `[]`, and the
   * message is never empty and comes either from the default or from the
   * string found in `message`, `error` or `errors`.
   */
  function FromResponse(statusCode: int, responseBody: Json): (e: LicenseValidationException)
    ensures e.statusCode == statusCode
    ensures e.responseBody == if IsArray(responseBody) then responseBody else EmptyArray
    ensures !IsEmpty(JString(e.message))
    ensures || e.message == DefaultMessage
            || Offset(responseBody, "message") == JString(e.message)
            || Offset(responseBody, "error") == JString(e.message)
            || Offset(responseBody, "errors") == JString(e.message)
  {
    var body: PhpArray := if IsArray(responseBody) then responseBody else EmptyArray;
    New(statusCode, ExtractMessage(body), Some(body))
  }

  /** A null body reads back as `[]`, any other body as given. */
  lemma ResponseBodyOfNew(statusCode: int, message: string, body: PhpArray)
    ensures GetResponseBody(New(statusCode, message, None)) == EmptyArray
    ensures GetResponseBody(New(statusCode, message, Some(body))) == body
  {
  }

  /**
   * A non-empty string `message` is the message; on an object body it stays
   * the message whatever `error` and `errors` are set to.
   */
  lemma MessageStringWins(statusCode: int, body: Json, error: Json, errors: Json)
    requires Offset(body, "message").JString? && !IsEmpty(Offset(body, "message"))
    ensures FromResponse(statusCode, body).message == Offset(body, "message").s
    ensures body.JObject? ==>
              FromResponse(statusCode, WithField(WithField(body, "error", error), "errors", errors)).message
              == Offset(body, "message").s
  {
  }

  /**
   * A non-empty `message` that is not a string gives the default; on an
   * object body `error` and `errors` do not change that, whatever they hold.
   */
  lemma NonStringMessageGivesDefault(statusCode: int, body: Json, error: Json, errors: Json)
    requires !IsEmpty(Offset(body, "message")) && !Offset(body, "message").JString?
    ensures FromResponse(statusCode, body).message == DefaultMessage
    ensures body.JObject? ==>
              FromResponse(statusCode, WithField(WithField(body, "error", error), "errors", errors)).message
              == DefaultMessage
  {
  }

  /**
   * `error` is consulted only when `message` is empty or absent: then a
   * non-empty `error` decides (the default when it is not a string), and on
   * an object body it does so whatever `errors` is set to.
   */
  lemma ErrorDecidesWhenMessageEmpty(statusCode: int, body: Json, errors: Json)
    requires IsEmpty(Offset(body, "message")) && !IsEmpty(Offset(body, "error"))
    ensures FromResponse(statusCode, body).message
            == if Offset(body, "error").JString? then Offset(body, "error").s else DefaultMessage
    ensures body.JObject? ==>
              FromResponse(statusCode, WithField(body, "errors", errors)).message
              == if Offset(body, "error").JString? then Offset(body, "error").s else DefaultMessage
  {
  }

  /**
   * With `message` and `error` both empty, the message is `errors` exactly
   * when `errors` is a non-empty string; an array `errors` leaves the default.
   */
  lemma ErrorsUsedOnlyAsString(statusCode: int, body: Json)
    requires IsEmpty(Offset(body, "message")) && IsEmpty(Offset(body, "error"))
    ensures var errors := Offset(body, "errors");
            FromResponse(statusCode, body).message
            == if errors.JString? && !IsEmpty(errors) then errors.s else DefaultMessage
  {
  }

  /** A body that is not an array is stored as `[]` and gives the default message. */
  lemma NonArrayBodyGivesDefault(statusCode: int, responseBody: Json)
    requires !IsArray(responseBody)
    ensures FromResponse(statusCode, responseBody) == LicenseValidationException(statusCode, DefaultMessage, EmptyArray)
  {
  }

  /** The precedence on the bodies `{message: "A"}`, `{error: "B"}`, `{errors: "C"}` and `{errors: {field: ["x"]}}`. */
  lemma MessagePrecedenceExamples(statusCode: int)
    ensures FromResponse(statusCode, JObject(map["message" := JString("A")])).message == "A"
    ensures FromResponse(statusCode, JObject(map["error" := JString("B")])).message == "B"
    ensures FromResponse(statusCode, JObject(map["errors" := JString("C")])).message == "C"
    ensures var body := JObject(map["errors" := JObject(map["field" := JList([JString("x")])])]);
            FromResponse(statusCode, body) == LicenseValidationException(statusCode, DefaultMessage, body)
  {
  }
}
