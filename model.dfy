/**
 * Records shared by the HTTP client and the endpoint functions: the error record
 * (model/error.go), the geocode query (model/postcodes.go) and the result wrappers
 * that stand for Go's `(value, *ResponseError)` return pairs.
 */
module Model {

  datatype Option<+T> = None | Some(value: T)

  /** model.ResponseError: an HTTP-style status code and a human-readable message. */
  datatype ResponseError = ResponseError(status: int, error: string)

  /** A Go `(value, *model.ResponseError)` pair in which exactly one side is set. */
  datatype Result<+T> = Ok(value: T) | Err(error: ResponseError)

  const StatusOK := 200
  const StatusBadRequest := 400
  const StatusInternalServerError := 500

  /** Go's int64. */
  type Int64 = x: int | -0x8000_0000_0000_0000 <= x < 0x8000_0000_0000_0000

  /**
   * model.Geocode. Coordinates are the exact values of the caller's float64s;
   * a zero limit or radius means "not given" (Go's zero value).
   */
  datatype Geocode = Geocode(latitude: real, longitude: real, limit: Int64, radius: Int64, wideSearch: bool)
}
