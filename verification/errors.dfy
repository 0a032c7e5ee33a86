/** The crate's error values, as far as the modelled code builds or matches them.
    The definitions live in the crate's error module, which is not part of this
    model; only the variants the modelled code constructs are kept. */
module Errors {

  /** One entry of the error array a management API returns on failure. Its
      serde shape is not modelled: an entry is kept as its message text. */
  datatype ErrorDetail = ErrorDetail(message: string)

  /** How the body of a failed response was understood. */
  datatype ErrorDetailKind =
    | Parsed(details: seq<ErrorDetail>)
    | Raw(text: string)

  datatype Error =
    /** A non-success HTTP status from the management API. */
    | ManagementApi(statusCode: int, detail: ErrorDetailKind)
    /** A failure of the OAuth2 token endpoint, boxed as text. */
    | Auth(reason: string)

  /** Returned by the client builder when a mandatory property is unset. */
  datatype BuilderError = MissingProperty(property: string)

  /** HTTP status codes the modelled code names. */
  const NotFound: int := 404

  /** `StatusCode::is_success`: the 2xx range. */
  predicate IsSuccess(status: int) {
    200 <= status <= 299
  }
}
