# postcode-sdk-go, modelled in Dafny

postcode-sdk-go is a Go client for the postcodes.io REST service. Each endpoint function does four things:
- checks its arguments locally;
- collects query parameters on a fresh client;
- builds and sends one HTTP request;
- unwraps the service's `{status, result, error}` envelope into a typed result or a `ResponseError`.

This project models the deterministic layer around the transport and the JSON codec. The transport and the codec are inputs.

- `model.dfy` (module `Model`) holds the shared records:
  - `ResponseError`;
  - the `Geocode` query;
  - `Result`, the `(value, *ResponseError)` pair in which exactly one side is set;
  - Go's `int64` as a subset type.
- `text.dfy` (module `Text`) holds the standard-library formatting the endpoints use to write query values, each paired with a reader that recovers what was written:
  - `strconv.FormatInt(n, 10)`;
  - `strconv.FormatBool`;
  - `strconv.FormatFloat(x, 'f', 20, 64)`;
  - `strings.Join`.
- `envelope.dfy` (module `Envelope`) holds the three internal-error constructors and the staged envelope decoder of `postcode/internal/reponse.go`.
- `client.dfy` (module `HttpClient`) models `postcode/internal/client.go`:
  - a `Client` class with the fields `url`, `headers`, `query` and `req`;
  - the `Request` method, whose loops add the headers and set the query parameters;
  - the `Do` method, which sorts a reply into a response or an error.
  - Their specifications are the functions `JoinUrl`, `HeaderMap`, `MergeQuery` and `DoOutcome`.
- `postcodes.dfy` (module `Postcode`) models `postcode/postcodes.go`:
  - the three `validate` methods;
  - one plan function per endpoint, giving either the local 400 error or the method, path, ordered query pairs and body it sends;
  - `Transmit` and `Perform`, which describe how a plan is carried out;
  - one method per endpoint function, written step by step as in Go (fresh client, appends to `client.query`, `Request`, `Do`, decode) and proved equal to `Perform` of its plan.

The world outside is an `Environment`:
- the JSON encoder of request bodies;
- the error `http.NewRequest` reports for a URL, if any;
- the transport together with the service, which answers a request with a `Reply`.

The body of a reply is given as what each decoder made of it. One reading is as an error record, used by `Do` when the status is not 200. The other is as an envelope, used by `ResponseDecoder`. The endpoint's record type is the type parameter `T`.

Where the code and its accompanying description disagree, the model follows the code:
- `Query`, `Autocomplete` and `NearestPostcode` send any given limit or radius, including zero and negative values. Only `PlaceQuery`, `NearestOutcode` and the geocode fields skip non-positive ones.
- A limit of exactly 100 is accepted, although the message says "less than 100".
- `NearestOutcode` checks nothing.

## Model

| member | source | states |
|---|---|---|
| Text.DecimalRoundTrip | postcode/postcodes.go:128-139 | the digits written for a non-negative number read back as that number |
| Text.ParseFormatInt | postcode/postcodes.go:128-139 | what `strconv.FormatInt(n, 10)` writes parses back to `n`, sign included |
| Text.FormatBool | postcode/postcodes.go:140-145 | `strconv.FormatBool` writes "true" exactly for true |
| Text.SplitJoin | postcode/postcodes.go:77-82 | when no piece contains the separator, joining then splitting at it gives the pieces back in order |
| Text.PadDecimalValue | postcode/postcodes.go:119-126 | the zero-padded fraction digits denote the scaled value modulo 10^20 |
| Text.RoundHalfEven | postcode/postcodes.go:119-126 | the rounded scaled value is within half a unit of the exact one |
| Text.FormatFloatValue | postcode/postcodes.go:119-126 | `FormatFloat(x, 'f', 20, 64)` writes a fixed-point numeral with exactly 20 fraction digits whose value is within half a unit in the last place of `x` |
| Envelope.RequestBuildError | postcode/internal/reponse.go:27-32 | status 500; the message is "Failed to build request: " followed by the cause, which can be read back |
| Envelope.PayloadEncodeError | postcode/internal/reponse.go:34-39 | status 500; the message is "Failed to encode the request body: " followed by the cause |
| Envelope.ResponseDecodeError | postcode/internal/reponse.go:41-46 | status 500; the message is "Failed to parse response body: " followed by the cause |
| Envelope.InternalErrorsDistinct | postcode/internal/reponse.go:27-46 | no internal error reads as having another constructor's prefix |
| Envelope.ResponseDecoder | postcode/internal/reponse.go:55-79 | an unreadable envelope is a decode error whatever its status; an envelope status of 400 or more is returned verbatim without decoding `result`; a lower status (0 included) decodes `result`, and a failure there is a 500; a result is returned only from a decoded `result` under a status below 400 |
| HttpClient.JoinUrl | postcode/internal/client.go:76 | the URL is the base, one slash, then the path exactly as given |
| HttpClient.HeaderMapValues | postcode/internal/client.go:81-83 | every configured header is sent, and a repeated key keeps all its values in list order |
| HttpClient.DefaultHeadersSent | postcode/internal/client.go:43-46 | a default client sends exactly Content-Type and Accept, both application/json |
| HttpClient.MergeQueryLastWins | postcode/internal/client.go:85-89 | a query key is sent once, exactly when some pair has it, with the value of the last pair that has it |
| HttpClient.MergeQueryAppend | postcode/internal/client.go:85-89 | setting one list of pairs and then another gives the first map overridden by the second |
| HttpClient.MergeDistinct | postcode/internal/client.go:85-89 | when no key repeats, every pair reaches the request unchanged |
| HttpClient.DoOutcome | postcode/internal/client.go:50-73 | exactly one of response and error is set: a transport failure is a 500 with the transport's message; a 200 is the response; any other status is the error record read from the body verbatim, or a 500 with the decoder's message |
| HttpClient.NullErrorBodyAsWritten | postcode/internal/client.go:60-69 | as written, a non-200 reply whose body is `null` yields neither a response nor an error |
| HttpClient.DoOutcomeAgreesAsWritten | postcode/internal/client.go:50-73 | the corrected outcome differs from the code as written exactly on a non-200 reply with a `null` body |
| HttpClient.Client.constructor | postcode/internal/client.go:40-48 | a new client has the service URL, the two JSON headers in order and no query parameters |
| HttpClient.Client.Request | postcode/internal/client.go:75-93 | when the URL parses, `req` carries the method, the joined URL, all headers added in order, the query pairs set in order and the body; otherwise the parse error is returned and `req` is unchanged |
| HttpClient.Client.Do | postcode/internal/client.go:50-73 | sends `req` and returns the outcome `DoOutcome` gives for the reply |
| Postcode.Postcodes.Validate | postcode/postcodes.go:646-660 | no error exactly for 1 to 100 postcodes; none gives "minimum of 1 postcode required!", more than 100 the maximum message, both status 400 |
| Postcode.ValidateGeocode | postcode/postcodes.go:666-674 | a 400 "Latitude and Longitude must be defined" exactly when a coordinate is zero |
| Postcode.FirstInvalid | postcode/postcodes.go:696-700 | the position of the first geolocation that fails its check: all before it pass, and it fails |
| Postcode.Geocodes.Check | postcode/postcodes.go:681-703 | no error exactly when there are 1 to 100 geolocations and all pass; otherwise the empty check, then the over-100 check, then the first failing entry's error |
| Postcode.Geocodes.Validate | postcode/postcodes.go:681-703 | the size checks and then a scan that stops at the first invalid entry decide what `Check` decides |
| Postcode.LimitCheck | postcode/postcodes.go:225-230 | a limit is rejected with a 400 exactly when it is given and above 100 |
| Postcode.GivenParamSends | postcode/postcodes.go:238-243 | a given number is sent under its key, as a decimal that reads back as the number |
| Postcode.PositiveParamSends | postcode/postcodes.go:598-603 | a number is sent exactly when it is given and positive, and reads back as itself |
| Postcode.PathPlan | postcode/postcodes.go:37-54 | a GET of the path with no parameters and no body |
| Postcode.BulkLookupPlan | postcode/postcodes.go:66-86 | rejected exactly when the batch fails validation, with that error; otherwise a POST of the batch to `postcodes` with the filter pair |
| Postcode.BulkReverseGeocodingPlan | postcode/postcodes.go:177-198 | rejected exactly when the geolocations fail validation, with that error; otherwise a POST of the geolocations to `postcodes` with the filter pair |
| Postcode.FilterSends | postcode/postcodes.go:77-82 | the bulk endpoints send one `filter` parameter, holding the filters joined by commas, only when there are filters; when no filter contains a comma, splitting the value at commas gives the filters back in order |
| Postcode.ReverseGeocodingPlan | postcode/postcodes.go:114-149 | rejected with a 400 exactly when a coordinate is zero; otherwise a GET of `postcodes` with no body |
| Postcode.GeocodeQuerySends | postcode/postcodes.go:118-145 | `lon` then `lat` come first and always, carrying the coordinates; `limit` and `radius` are sent exactly when positive and read back as the geocode's values; `widesearch=true` is sent exactly when requested and the endpoint sends it |
| Postcode.FormatFloatDenotes | postcode/postcodes.go:119-126 | a coordinate written into the query reads back as that coordinate, to within half a unit in the 20th decimal place |
| Postcode.OutcodeReverseGeocodingPlan | postcode/postcodes.go:434-463 | rejected with a 400 exactly when a coordinate is zero; otherwise a GET of `outcodes` with no body |
| Postcode.OutcodeReverseOmitsWideSearch | postcode/postcodes.go:438-459 | the outcode variant sends what the postcode variant sends, less `widesearch` |
| Postcode.QueryPlan | postcode/postcodes.go:224-247 | rejected with the limit message exactly when the limit is above 100 (100 and negative values pass); otherwise a GET of `postcodes` |
| Postcode.QuerySends | postcode/postcodes.go:233-243 | sends `q` always and `limit` whenever one is given, zero and negative values included |
| Postcode.AutocompletePlan | postcode/postcodes.go:343-363 | rejected with the limit message exactly when the limit is above 100; otherwise a GET of `postcodes/<postcode>/autocomplete` |
| Postcode.AutocompleteSends | postcode/postcodes.go:354-359 | sends `limit` whenever one is given, and nothing else |
| Postcode.PlaceQueryPlan | postcode/postcodes.go:583-607 | rejected with the limit message exactly when the limit is above 100; otherwise a GET of `places` |
| Postcode.PlaceQuerySends | postcode/postcodes.go:593-603 | sends `q` always and `limit` only when it is given and positive |
| Postcode.LimitInclusionDiffers | postcode/postcodes.go:598-603 | for the same accepted limit, `Query` always sends it while `PlaceQuery` drops it unless positive |
| Postcode.NearestPostcodePlan | postcode/postcodes.go:291-324 | rejected exactly when the limit is above 100 or the radius above 2000, both with the limit's message; otherwise a GET of `postcodes/<postcode>/nearest` |
| Postcode.NearestPostcodeSends | postcode/postcodes.go:308-320 | sends `limit` and `radius` whenever they are given |
| Postcode.NearestOutcodePlan | postcode/postcodes.go:484-501 | never rejects; a GET of `outcodes/<outcode>/nearest` |
| Postcode.NearestOutcodeSends | postcode/postcodes.go:486-497 | sends `limit` and `radius` only when they are given and positive |
| Postcode.RandomPostcodePlan | postcode/postcodes.go:382-392 | a GET of `random/postcodes` with no body |
| Postcode.RandomPostcodeSends | postcode/postcodes.go:384-389 | sends `outcode`, verbatim, exactly when one is given |
| Postcode.Transmit | postcode/postcodes.go:84-98 | a body that does not encode or a URL that does not parse is an internal error and nothing is sent; a transport failure or a status other than 200 is the error Do reports; a 200 is what the envelope decodes to; a result is returned only from a 200 whose envelope status is below 400 and whose `result` decoded to it |
| Postcode.Perform | postcode/postcodes.go:114-117 | a locally rejected call returns its 400 error and nothing is encoded or sent |
| Postcode.Send | postcode/postcodes.go:147-161 | Request, Do and ResponseDecoder on a default client deliver what `Deliver` describes for its query list |
| Postcode.Lookup | postcode/postcodes.go:37-54 | GET `postcodes/<postcode>`, proved equal to `Perform` of its plan |
| Postcode.BulkLookup | postcode/postcodes.go:66-99 | validate, encode, add the filter, send: equal to `Perform` of `BulkLookupPlan` |
| Postcode.ReverseGeocoding | postcode/postcodes.go:114-162 | validate, append `lon`, `lat` and the optional parameters, send: equal to `Perform` of `ReverseGeocodingPlan` |
| Postcode.BulkReverseGeocoding | postcode/postcodes.go:177-211 | validate by the scanning loop, encode, add the filter, send: equal to `Perform` of `BulkReverseGeocodingPlan` |
| Postcode.Query | postcode/postcodes.go:224-260 | equal to `Perform` of `QueryPlan` |
| Postcode.Validation | postcode/postcodes.go:265-282 | GET `postcodes/<postcode>/validate`, equal to `Perform` of its plan |
| Postcode.NearestPostcode | postcode/postcodes.go:291-337 | equal to `Perform` of `NearestPostcodePlan` |
| Postcode.Autocomplete | postcode/postcodes.go:343-376 | equal to `Perform` of `AutocompletePlan` |
| Postcode.RandomPostcode | postcode/postcodes.go:382-405 | equal to `Perform` of `RandomPostcodePlan` |
| Postcode.OutcodeLookup | postcode/postcodes.go:409-426 | GET `outcodes/<outcode>`, equal to `Perform` of its plan |
| Postcode.OutcodeReverseGeocoding | postcode/postcodes.go:434-476 | equal to `Perform` of `OutcodeReverseGeocodingPlan` |
| Postcode.NearestOutcode | postcode/postcodes.go:484-514 | equal to `Perform` of `NearestOutcodePlan` |
| Postcode.ScottishPostcodeLookup | postcode/postcodes.go:518-535 | GET `scotland/postcodes/<postcode>`, equal to `Perform` of its plan |
| Postcode.TerminatedPostcodeLookup | postcode/postcodes.go:538-555 | GET `terminated_postcodes/<postcode>`, equal to `Perform` of its plan |
| Postcode.PlaceLookup | postcode/postcodes.go:559-576 | GET `places/<code>`, equal to `Perform` of its plan |
| Postcode.PlaceQuery | postcode/postcodes.go:583-620 | equal to `Perform` of `PlaceQueryPlan` |
| Postcode.RandomPlace | postcode/postcodes.go:623-640 | GET `random/places`, equal to `Perform` of its plan |

## Left out

- JSON encoding and decoding are inputs, not code:
  - `Postcodes.json`, `Geocodes.json` and `Geocode.json` are the environment's encoder;
  - the two decodings of a response body (as an error record, as an envelope) and the re-marshal of `result` into the endpoint's record are given as decoded values.
- The transport is the environment's `server`: `http.Client`, `bytes.NewBuffer` and reading the body.
- The record types of the model/ directory other than `ResponseError` and `Geocode` are the type parameter `T`; they have no behaviour.
- A `null` `result` under status 200 is not modelled. The endpoints that decode `result` into a `**T` (`Query`, `Validation`, `NearestPostcode`, `Autocomplete`) would set the inner `*T` to nil and then dereference it. The model returns the decoded value instead.
- Coordinates are the exact real values of the caller's float64s; NaN and the infinities are not represented.
- HttpClient.Client.Request: starts the query parameters empty. `http.NewRequest` would also pick up a query string embedded in the path (a postcode containing `?`), and the model does not parse one.
- The order and escaping `url.Values.Encode` gives the query string are not modelled. The parameters are kept as a map.
- Header keys are kept as written. `http.Header.Add` canonicalises them, which leaves Content-Type and Accept unchanged.
- `log.Printf` in the decoder is a side effect only.
- `Validation` returns `false` alongside an error; the model returns only the error.
- The unused `Http` interface (postcode/internal/client.go:34-37) is not modelled.
- example/postcode/main.go and doc.go are not modelled: a demonstration program and package documentation.
- No claim is made about concurrent use. Each endpoint builds its own client.

## Findings

| source | as written | input that shows it | evidently intended | confidence | as-written member | corrected member |
|---|---|---|---|---|---|---|
| postcode/internal/client.go:60-70 | the error body is decoded into a `**ResponseError`, and JSON `null` sets the inner `*ResponseError` to nil, so `Do` returns neither a response nor an error and the endpoint then reads the body of a nil response | an HTTP 404 reply whose body is `null` | report an error; the model uses the reply's status code with an empty message | not executed | HttpClient.NullErrorBodyAsWritten | HttpClient.DoOutcome |
