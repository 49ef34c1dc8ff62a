/**
 * The structured error raised for every unsuccessful HTTP exchange
 * (lib/xminds/response_error.rb), and the other errors the client can raise.
 */
module ResponseErrors {

  import opened Wrappers
  import opened JsonValues

  /**
   * Xminds::ResponseError. `message` is the whole parsed error body; the
   * exception's text is its JSON serialisation.
   */
  datatype ResponseError = ResponseError(
    httpStatusCode: int,
    errorCode: Json,
    errorName: Json,
    errorMessage: Json,
    errorData: Json,
    message: Json)

  /** Everything a call through the client can raise. */
  datatype Failure =
    | ApiError(error: ResponseError)        // Xminds::ResponseError
    | ClientError(text: string)             // Xminds::ClientError
    | ArgumentError(text: string)           // Ruby's ArgumentError
    | ParserError                           // JSON::ParserError: a body that is not JSON
    | NotAnObject                           // TypeError or NoMethodError: a field read on a JSON value that is not an object
    | ConnectionError                       // Net::HTTP raised: the server sent no reply

  /**
   * `ResponseError.new(http_status_code:, message:)`. Each field is read from
   * the key of the parsed body named after it, except `error_message`, which
   * is read from `message`. Reading a key of a body that is not a JSON object
   * raises before any error is built.
   */
  function NewResponseError(httpStatusCode: int, message: Json): (r: Result<ResponseError, Failure>)
    ensures r.Ok? <==> message.JObj?
    ensures r.Err? ==> r.error == NotAnObject
    ensures r.Ok? ==> r.value.httpStatusCode == httpStatusCode && r.value.message == message
  {
    match message
    case JObj(m) =>
      Ok(ResponseError(
        httpStatusCode,
        Lookup(m, "error_code"),
        Lookup(m, "error_name"),
        Lookup(m, "message"),
        Lookup(m, "error_data"),
        message))
    case _ => Err(NotAnObject)
  }

  /** The error body a server sends for the given fields, each key present only when its value is not nil. */
  function ErrorBody(errorCode: Json, errorName: Json, errorMessage: Json, errorData: Json): Hash {
    Compact(map["error_code" := errorCode, "error_name" := errorName, "message" := errorMessage, "error_data" := errorData])
  }

  /**
   * Round trip: the fields of an error built from a body that carries them
   * are those fields, nested `error_data` included; a key the body leaves out
   * reads as nil.
   */
  lemma ResponseErrorRoundTrip(status: int, errorCode: Json, errorName: Json, errorMessage: Json, errorData: Json)
    ensures var r := NewResponseError(status, JObj(ErrorBody(errorCode, errorName, errorMessage, errorData)));
      && r.Ok?
      && r.value.httpStatusCode == status
      && r.value.errorCode == errorCode
      && r.value.errorName == errorName
      && r.value.errorMessage == errorMessage
      && r.value.errorData == errorData
  {
  }

  /** `error_message` comes from the `message` key: a body with only an `error_message` key leaves it nil. */
  lemma ErrorMessageReadsMessageKey(status: int, text: Json)
    requires text != JNull
    ensures var r := NewResponseError(status, JObj(map["error_message" := text]));
      && r.Ok?
      && r.value.errorMessage == JNull
      && r.value.errorCode == JNull
      && r.value.errorName == JNull
      && r.value.errorData == JNull
  {
  }
}
