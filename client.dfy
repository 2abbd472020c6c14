/**
 * The request builder and dispatcher (postcode/internal/client.go). A client holds
 * the service's base URL, the headers to send and the query parameters that an
 * endpoint function has gathered; Request turns them into an HTTP request and Do
 * sends it and sorts the reply into a response or an error.
 *
 * What happens on the wire is not modelled: http.NewRequest's URL check is the
 * parameter `urlError` (the error it reports for a URL, if any), and the
 * transport together with the service is the parameter `server`, which answers
 * a request with a Reply.
 */
module HttpClient {
  import opened Model
  import opened Envelope

  const API := "https://api.postcodes.io"

  /** The `key` struct of client.go; both headers and query parameters are such pairs. */
  datatype Pair = Pair(key: string, value: string)

  const DefaultHeaders: seq<Pair> := [Pair("Content-Type", "application/json"), Pair("Accept", "application/json")]

  /**
   * The request handed to the transport. `header` is Go's http.Header (each key
   * with its values in the order they were added); `params` is the url.Values
   * the query string is encoded from; `body` is the encoded request body, empty
   * when the caller passed none.
   */
  datatype HttpRequest = HttpRequest(
    httpMethod: string,
    url: string,
    header: map<string, seq<string>>,
    params: map<string, string>,
    body: string)

  /** What the JSON decoder made of a response body read as a model.ResponseError. */
  datatype ErrorBody =
    | ErrorRecord(record: ResponseError)
    | ErrorNull                            // the body was the JSON literal null
    | ErrorMalformed(message: string)

  /** A reply with a status line; its body as read by each of the two decoders that may read it. */
  datatype HttpResponse<T> = HttpResponse(statusCode: int, asError: ErrorBody, asEnvelope: EnvelopeDecode<T>)

  datatype Reply<T> = TransportFailed(message: string) | Replied(response: HttpResponse<T>)

  /** The request URL: base, a slash, then `uri` exactly as given (nothing is escaped). */
  function JoinUrl(base: string, uri: string): (url: string)
    ensures |url| == |base| + 1 + |uri| && url[..|base|] == base && url[|base|] == '/' && url[|base| + 1..] == uri
  {
    base + "/" + uri
  }

  // ---- headers: http.Header.Add appends ----

  function AddHeader(header: map<string, seq<string>>, h: Pair): map<string, seq<string>>
  {
    header[h.key := (if h.key in header then header[h.key] else []) + [h.value]]
  }

  /** The header after adding every pair of `hs`, first to last. */
  function HeaderMap(hs: seq<Pair>): map<string, seq<string>>
  {
    if hs == [] then map[] else AddHeader(HeaderMap(hs[..|hs| - 1]), hs[|hs| - 1])
  }

  /** The values `hs` gives for `key`, in list order. */
  function ValuesOf(hs: seq<Pair>, key: string): seq<string>
  {
    if hs == [] then []
    else ValuesOf(hs[..|hs| - 1], key) + (if hs[|hs| - 1].key == key then [hs[|hs| - 1].value] else [])
  }

  /** Every configured header is sent, and a repeated key keeps all its values in list order. */
  lemma {:induction false} HeaderMapValues(hs: seq<Pair>, key: string)
    ensures key in HeaderMap(hs) <==> ValuesOf(hs, key) != []
    ensures key in HeaderMap(hs) ==> HeaderMap(hs)[key] == ValuesOf(hs, key)
  {
    if hs != [] {
      HeaderMapValues(hs[..|hs| - 1], key);
    }
  }

  /** A default client sends exactly the two JSON headers, one value each. */
  lemma DefaultHeadersSent()
    ensures HeaderMap(DefaultHeaders) == map["Content-Type" := ["application/json"], "Accept" := ["application/json"]]
  {
    var first := DefaultHeaders[..1];
    assert first[..0] == [] && first[0] == Pair("Content-Type", "application/json");
    assert [] + ["application/json"] == ["application/json"];
    assert HeaderMap(first) == AddHeader(map[], first[0]);
    assert HeaderMap(first) == map["Content-Type" := ["application/json"]];
    assert DefaultHeaders[..|DefaultHeaders| - 1] == first;
    assert "Accept" !in HeaderMap(first);
  }

  // ---- query parameters: url.Values.Set replaces ----

  /** The parameters after setting every pair of `qs`, first to last. */
  function MergeQuery(qs: seq<Pair>): map<string, string>
  {
    if qs == [] then map[] else MergeQuery(qs[..|qs| - 1])[qs[|qs| - 1].key := qs[|qs| - 1].value]
  }

  /** A key is sent once, exactly when some pair has it, with the value of the last such pair. */
  lemma {:induction false} MergeQueryLastWins(qs: seq<Pair>, key: string)
    ensures key in MergeQuery(qs) <==> exists i :: 0 <= i < |qs| && qs[i].key == key
    ensures key in MergeQuery(qs) ==>
      exists i :: 0 <= i < |qs| && qs[i].key == key && MergeQuery(qs)[key] == qs[i].value &&
        forall j :: i < j < |qs| ==> qs[j].key != key
  {
    if qs != [] {
      var init, last := qs[..|qs| - 1], qs[|qs| - 1];
      MergeQueryLastWins(init, key);
      assert forall i :: 0 <= i < |init| ==> init[i] == qs[i];
      if last.key != key && key in MergeQuery(init) {
        var i :| 0 <= i < |init| && init[i].key == key && MergeQuery(init)[key] == init[i].value &&
          forall j :: i < j < |init| ==> init[j].key != key;
        assert forall j :: i < j < |qs| ==> qs[j].key != key;
      }
    }
  }

  /** Setting the pairs of `a` and then those of `b`: the keys of `b` override those of `a`. */
  lemma {:induction false} MergeQueryAppend(a: seq<Pair>, b: seq<Pair>)
    ensures MergeQuery(a + b) == MergeQuery(a) + MergeQuery(b)
  {
    if b == [] {
      assert a + b == a;
    } else {
      var init := b[..|b| - 1];
      assert (a + b)[..|a + b| - 1] == a + init;
      MergeQueryAppend(a, init);
    }
  }

  lemma MergeQuerySingle(p: Pair)
    ensures MergeQuery([p]) == map[p.key := p.value]
  {
    assert [p][..0] == [];
  }

  predicate DistinctKeys(qs: seq<Pair>)
  {
    forall i, j :: 0 <= i < j < |qs| ==> qs[i].key != qs[j].key
  }

  /** When no key repeats, every pair reaches the request unchanged. */
  lemma MergeDistinct(qs: seq<Pair>, i: nat)
    requires DistinctKeys(qs) && i < |qs|
    ensures qs[i].key in MergeQuery(qs) && MergeQuery(qs)[qs[i].key] == qs[i].value
  {
    MergeQueryLastWins(qs, qs[i].key);
  }

  // ---- Do ----

  /**
   * The outcome of Do for a reply: exactly one of response and error is set. A
   * transport failure is a 500 carrying the transport's message; a status of 200
   * gives the response; any other status gives no response and the error record
   * read from the body verbatim, or a 500 with the decoder's message when the body
   * does not read as one. A body that is JSON null yields an error with the
   * reply's status code and no message.
   */
  function DoOutcome<T>(reply: Reply<T>): (r: (Option<HttpResponse<T>>, Option<ResponseError>))
    ensures r.0.Some? != r.1.Some?
    ensures reply.TransportFailed? ==> r == (None, Some(ResponseError(StatusInternalServerError, reply.message)))
    ensures reply.Replied? && reply.response.statusCode == StatusOK ==> r == (Some(reply.response), None)
    ensures reply.Replied? && reply.response.statusCode != StatusOK ==>
      r.0.None? &&
      match reply.response.asError
      case ErrorRecord(e) => r.1 == Some(e)
      case ErrorMalformed(m) => r.1 == Some(ResponseError(StatusInternalServerError, m))
      case ErrorNull => r.1 == Some(ResponseError(reply.response.statusCode, ""))
  {
    match reply
    case TransportFailed(m) => (None, Some(ResponseError(StatusInternalServerError, m)))
    case Replied(resp) =>
      if resp.statusCode != StatusOK then
        match resp.asError
        case ErrorMalformed(m) => (None, Some(ResponseError(StatusInternalServerError, m)))
        case ErrorNull => (None, Some(ResponseError(resp.statusCode, "")))
        case ErrorRecord(e) => (None, Some(e))
      else
        (Some(resp), None)
  }

  /**
   * Do as client.go writes it: the error body is decoded into a **ResponseError,
   * and JSON null sets the inner *ResponseError to nil, so Do then returns
   * neither a response nor an error.
   */
  function DoOutcomeAsWritten<T>(reply: Reply<T>): (Option<HttpResponse<T>>, Option<ResponseError>)
  {
    match reply
    case TransportFailed(m) => (None, Some(ResponseError(StatusInternalServerError, m)))
    case Replied(resp) =>
      if resp.statusCode != StatusOK then
        match resp.asError
        case ErrorMalformed(m) => (None, Some(ResponseError(StatusInternalServerError, m)))
        case ErrorNull => (None, None)
        case ErrorRecord(e) => (None, Some(e))
      else
        (Some(resp), None)
  }

  /** A 404 whose body is `null` leaves the caller with neither a response nor an error. */
  lemma NullErrorBodyAsWritten<T>(body: EnvelopeDecode<T>)
    ensures DoOutcomeAsWritten(Replied(HttpResponse(404, ErrorNull, body))) == (None, None)
  {
  }

  /** The corrected Do differs from the code as written only on a null error body. */
  lemma DoOutcomeAgreesAsWritten<T>(reply: Reply<T>)
    ensures DoOutcome(reply) != DoOutcomeAsWritten(reply) <==>
      reply.Replied? && reply.response.statusCode != StatusOK && reply.response.asError.ErrorNull?
  {
  }

  class Client {
    var url: string
    var headers: seq<Pair>
    var query: seq<Pair>
    var req: HttpRequest

    /** Client(): the service's base URL, the two JSON headers and no query parameters. */
    constructor ()
      ensures url == API && headers == DefaultHeaders && query == []
    {
      url := API;
      headers := DefaultHeaders;
      query := [];
      req := HttpRequest("", "", map[], map[], "");
    }

    /**
     * Builds the request for `httpMethod` on `uri` and keeps it in `req`: the URL is
     * the base URL, a slash and `uri`; every configured header is added in order;
     * the query parameters are set in order, so a later pair overrides an earlier
     * one with the same key. When the URL does not parse, the error is returned
     * and `req` is left alone.
     */
    method Request(httpMethod: string, uri: string, body: string, urlError: string -> Option<string>)
      returns (err: Option<string>)
      modifies this`req
      ensures err == urlError(JoinUrl(url, uri))
      ensures err.Some? ==> req == old(req)
      ensures err.None? ==> req == HttpRequest(httpMethod, JoinUrl(url, uri), HeaderMap(headers), MergeQuery(query), body)
    {
      var target := url + "/" + uri;
      err := urlError(target);
      if err.Some? {
        return;
      }
      var header := map[];
      for i := 0 to |headers|
        invariant header == HeaderMap(headers[..i])
      {
        assert headers[..i + 1][..i] == headers[..i];
        header := AddHeader(header, headers[i]);
      }
      assert headers[..|headers|] == headers;
      var params := map[];
      for i := 0 to |query|
        invariant params == MergeQuery(query[..i])
      {
        assert query[..i + 1][..i] == query[..i];
        params := params[query[i].key := query[i].value];
      }
      assert query[..|query|] == query;
      req := HttpRequest(httpMethod, target, header, params, body);
    }

    /** Sends `req` (through `server`) and sorts the reply as DoOutcome says. */
    method Do<T>(server: HttpRequest -> Reply<T>) returns (response: Option<HttpResponse<T>>, error: Option<ResponseError>)
      ensures (response, error) == DoOutcome(server(req))
    {
      var reply := server(req);
      if reply.TransportFailed? {
        return None, Some(ResponseError(StatusInternalServerError, reply.message));
      }
      var resp := reply.response;
      if resp.statusCode != StatusOK {
        match resp.asError {
          case ErrorMalformed(m) =>
            return None, Some(ResponseError(StatusInternalServerError, m));
          case ErrorNull =>
            return None, Some(ResponseError(resp.statusCode, ""));
          case ErrorRecord(e) =>
            return None, Some(e);
        }
      }
      return Some(resp), None;
    }
  }
}
