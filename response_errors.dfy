/**
 * `handleResponseErrors` (src/utils/util.ts): a successful response passes; a
 * failed one is read as text, the text is parsed as JSON if it can be, a
 * message is chosen from it, and the message decides between
 * `UserNotConnectedError` and a generic HTTP error.
 */
module ResponseErrors {
  import opened Wrappers
  import opened Text
  import opened JsObject
  import opened Json
  import opened Http

  /** The fixed text the downstream service sends when the user has not connected the integration. */
  const NOT_ENABLED := "Integration not enabled for user."

  datatype ClassifiedError =
    | UserNotConnected(message: string)
    | HttpError(status: int, message: string)
  {
    /** The text of the thrown error. */
    function Description(): string {
      match this
      case UserNotConnected(m) => m
      case HttpError(status, m) => "HTTP error; status: " + IntToString(status) + "; message: " + m
    }
  }

  /** `parseJsonOrNull`: `None` for an empty text, for text that does not parse, and for `null`. */
  function ParseJsonOrNull(text: string, parse: string -> Option<Json>): (r: Option<Json>)
    ensures text == "" ==> r == None
    ensures r.Some? ==> parse(text) == r && r.value != JNull
    ensures text != "" && parse(text).Some? && parse(text).value != JNull ==> r == parse(text)
  {
    if text == "" then None
    else match parse(text)
      case None => None
      case Some(JNull) => None
      case Some(v) => Some(v)
  }

  /** `hasMessageString`: an object with a string-valued `message` property. */
  predicate HasMessageString(v: Option<Json>) {
    v.Some? && Member(v.value, "message").Some? && Member(v.value, "message").value.JStr?
  }

  /** `determineMessage`. */
  function DetermineMessage(parsed: Option<Json>, fallbackText: string): string {
    if HasMessageString(parsed) then Member(parsed.value, "message").value.s
    else if parsed.Some? then Stringify(parsed.value)
    else fallbackText
  }

  /** The body text; a body that cannot be read counts as "". */
  function BodyText(response: Response): string {
    response.body.GetOr("")
  }

  /** The message `handleResponseErrors` classifies. */
  function ResponseMessage(response: Response, parse: string -> Option<Json>): string {
    DetermineMessage(ParseJsonOrNull(BodyText(response), parse), BodyText(response))
  }

  function Classify(status: int, message: string): (e: ClassifiedError)
    ensures e.UserNotConnected? <==> Contains(message, NOT_ENABLED)
    ensures e.UserNotConnected? ==> e.message == NOT_ENABLED
    ensures e.HttpError? ==> e.status == status && e.message == message
  {
    if Contains(message, NOT_ENABLED) then UserNotConnected(NOT_ENABLED)
    else HttpError(status, message)
  }

  /** `handleResponseErrors(response)`: completes exactly for a 2xx response. */
  function HandleResponseErrors(response: Response, parse: string -> Option<Json>): (r: Outcome<ClassifiedError>)
    ensures r.Pass? <==> response.Ok()
  {
    if response.Ok() then Pass
    else Fail(Classify(response.status, ResponseMessage(response, parse)))
  }

  /** `await handleResponseErrors(response); return await response.text();` */
  function CheckedText(response: Response, parse: string -> Option<Json>): (r: Result<string, ClassifiedError>)
    ensures r.Success? <==> response.Ok()
    ensures r.Success? ==> r.value == BodyText(response)
    ensures r.Failure? ==> Fail(r.error) == HandleResponseErrors(response, parse)
  {
    match HandleResponseErrors(response, parse)
    case Pass => Success(BodyText(response))
    case Fail(e) => Failure(e)
  }

  /**
   * A failed response raises `UserNotConnectedError` exactly when its message
   * mentions the fixed text, and the error then always carries that text.
   */
  lemma NotConnectedIffMarker(response: Response, parse: string -> Option<Json>)
    requires !response.Ok()
    ensures HandleResponseErrors(response, parse) == Fail(UserNotConnected(NOT_ENABLED))
        <==> Contains(ResponseMessage(response, parse), NOT_ENABLED)
  {
  }

  /** Any other failed response raises an error whose text carries the status and the message. */
  lemma HttpErrorCarriesStatusAndMessage(response: Response, parse: string -> Option<Json>)
    requires !response.Ok() && !Contains(ResponseMessage(response, parse), NOT_ENABLED)
    ensures HandleResponseErrors(response, parse) == Fail(HttpError(response.status, ResponseMessage(response, parse)))
    ensures Contains(HandleResponseErrors(response, parse).error.Description(), IntToString(response.status))
    ensures Contains(HandleResponseErrors(response, parse).error.Description(), ResponseMessage(response, parse))
  {
    var m := ResponseMessage(response, parse);
    var status := IntToString(response.status);
    ContainsInfix("HTTP error; status: ", status, "; message: " + m);
    assert "HTTP error; status: " + status + "; message: " + m
        == "HTTP error; status: " + status + ("; message: " + m);
    ContainsInfix("HTTP error; status: " + status + "; message: ", m, "");
    assert "HTTP error; status: " + status + "; message: " + m + ""
        == "HTTP error; status: " + status + "; message: " + m;
  }

  /** First choice: the `message` string of a parsed object. */
  lemma MessageFieldFirst(response: Response, parse: string -> Option<Json>, m: string)
    requires BodyText(response) != ""
    requires parse(BodyText(response)).Some? && Member(parse(BodyText(response)).value, "message") == Some(JStr(m))
    ensures ResponseMessage(response, parse) == m
  {
  }

  /** Second choice: any other parsed value other than `null`, stringified. */
  lemma StringifiedValueNext(response: Response, parse: string -> Option<Json>, v: Json)
    requires BodyText(response) != "" && parse(BodyText(response)) == Some(v) && v != JNull
    requires Member(v, "message").None? || !Member(v, "message").value.JStr?
    ensures ResponseMessage(response, parse) == Stringify(v)
  {
  }

  /** Last choice: the raw text, for an empty or unreadable body, invalid JSON, or `null`. */
  lemma RawTextLast(response: Response, parse: string -> Option<Json>)
    requires BodyText(response) == "" || parse(BodyText(response)) in {None, Some(JNull)}
    ensures ResponseMessage(response, parse) == BodyText(response)
  {
  }

  /** A body `{"message": "Integration not enabled for user."}` with status 400 means the user is not connected. */
  lemma NotConnectedExample(parse: string -> Option<Json>)
    requires parse("{\"message\": \"Integration not enabled for user.\"}") == Some(JObj([("message", JStr(NOT_ENABLED))]))
    ensures HandleResponseErrors(Response(400, Some("{\"message\": \"Integration not enabled for user.\"}")), parse)
      == Fail(UserNotConnected(NOT_ENABLED))
  {
    var response := Response(400, Some("{\"message\": \"Integration not enabled for user.\"}"));
    MessageFieldFirst(response, parse, NOT_ENABLED);
    assert Contains(NOT_ENABLED, NOT_ENABLED);
  }

  /** A failed response whose message is shorter than the fixed text is always a plain HTTP error. */
  lemma ShortMessageIsHttpError(response: Response, parse: string -> Option<Json>)
    requires !response.Ok() && |ResponseMessage(response, parse)| < |NOT_ENABLED|
    ensures HandleResponseErrors(response, parse) == Fail(HttpError(response.status, ResponseMessage(response, parse)))
  {
    ContainsIffOccurs(ResponseMessage(response, parse), NOT_ENABLED);
  }

  /** A body `{"message": "rate limited"}` with status 400 gives an HTTP error with that status and message. */
  lemma RateLimitedExample(parse: string -> Option<Json>)
    requires parse("{\"message\": \"rate limited\"}") == Some(JObj([("message", JStr("rate limited"))]))
    ensures HandleResponseErrors(Response(400, Some("{\"message\": \"rate limited\"}")), parse)
      == Fail(HttpError(400, "rate limited"))
  {
    var response := Response(400, Some("{\"message\": \"rate limited\"}"));
    MessageFieldFirst(response, parse, "rate limited");
    ShortMessageIsHttpError(response, parse);
  }
}
