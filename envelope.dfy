/**
 * The response envelope of the postcode service, `{status, result, error}`, and
 * the errors the client reports when a request cannot be built or a body cannot
 * be read (postcode/internal/reponse.go).
 *
 * JSON itself is not modelled: what the decoder found in a body is given as a
 * value of EnvelopeDecode, with the record the caller asked for as the type
 * parameter T.
 */
module Envelope {
  import opened Model

  /** What became of `result` when it was re-marshalled and unmarshalled into the caller's record. */
  datatype ResultDecode<T> =
    | Decoded(value: T)
    | MarshalFailed(message: string)
    | UnmarshalFailed(message: string)

  /**
   * What the JSON decoder made of a response body read as an envelope. A missing
   * `status` field reads as 0, a missing `error` field as "".
   */
  datatype EnvelopeDecode<T> =
    | Malformed(message: string)
    | Envelope(status: int, error: string, result: ResultDecode<T>)

  const BuildPrefix := "Failed to build request: "
  const EncodePrefix := "Failed to encode the request body: "
  const DecodePrefix := "Failed to parse response body: "

  /** The cause carried by an internal error whose message starts with `prefix`. */
  function Cause(e: ResponseError, prefix: string): Option<string>
  {
    if e.status == StatusInternalServerError && prefix <= e.error then Some(e.error[|prefix|..]) else None
  }

  /** http.NewRequest failed. */
  function RequestBuildError(message: string): (e: ResponseError)
    ensures e.status == StatusInternalServerError
    ensures Cause(e, BuildPrefix) == Some(message)
  {
    ResponseError(StatusInternalServerError, BuildPrefix + message)
  }

  /** json.Marshal of the request body failed. */
  function PayloadEncodeError(message: string): (e: ResponseError)
    ensures e.status == StatusInternalServerError
    ensures Cause(e, EncodePrefix) == Some(message)
  {
    ResponseError(StatusInternalServerError, EncodePrefix + message)
  }

  /** A response body (or its `result`) could not be decoded. */
  function ResponseDecodeError(message: string): (e: ResponseError)
    ensures e.status == StatusInternalServerError
    ensures Cause(e, DecodePrefix) == Some(message)
  {
    ResponseError(StatusInternalServerError, DecodePrefix + message)
  }

  /**
   * The three kinds of internal error can be told apart by their messages: an
   * error built by one constructor never reads as having another one's cause.
   */
  lemma InternalErrorsDistinct(message: string)
    ensures Cause(RequestBuildError(message), EncodePrefix).None?
    ensures Cause(RequestBuildError(message), DecodePrefix).None?
    ensures Cause(PayloadEncodeError(message), BuildPrefix).None?
    ensures Cause(PayloadEncodeError(message), DecodePrefix).None?
    ensures Cause(ResponseDecodeError(message), BuildPrefix).None?
    ensures Cause(ResponseDecodeError(message), EncodePrefix).None?
  {
    // "Failed to build", "Failed to encode" and "Failed to parse" differ at index 10.
    assert RequestBuildError(message).error[10] == 'b' && EncodePrefix[10] == 'e' && DecodePrefix[10] == 'p';
    assert PayloadEncodeError(message).error[10] == 'e' && BuildPrefix[10] == 'b';
    assert ResponseDecodeError(message).error[10] == 'p';
  }

  /**
   * ResponseDecoder: an unreadable envelope is a decode error and its status is
   * never looked at; an envelope status of 400 or more is returned as the error,
   * status and message verbatim, without touching `result`; any lower status
   * (including an absent one, 0) decodes `result`, and a failure there is a
   * decode error. Every error it returns has a status of at least 400.
   */
  function ResponseDecoder<T>(body: EnvelopeDecode<T>): (r: Result<T>)
    ensures body.Malformed? ==> r == Err(ResponseDecodeError(body.message))
    ensures body.Envelope? && body.status >= 400 ==> r == Err(ResponseError(body.status, body.error))
    ensures body.Envelope? && body.status < 400 ==> (r.Ok? <==> body.result.Decoded?)
    ensures body.Envelope? && body.status < 400 && r.Err? ==> r.error.status == StatusInternalServerError
    ensures r.Ok? ==> body == Envelope(body.status, body.error, Decoded(r.value)) && body.status < 400
    ensures r.Err? ==> r.error.status >= 400
  {
    match body
    case Malformed(m) => Err(ResponseDecodeError(m))
    case Envelope(status, error, result) =>
      if status >= 400 then Err(ResponseError(status, error))
      else
        match result
        case MarshalFailed(m) => Err(ResponseDecodeError(m))
        case UnmarshalFailed(m) => Err(ResponseDecodeError(m))
        case Decoded(v) => Ok(v)
  }
}
