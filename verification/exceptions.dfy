/** The exceptions the client raises or lets through, as one error type. */
module Exceptions {
  import opened Wrappers

  datatype Error =
    /** `InvalidOperationException` raised by the client's own checks, with its message. */
    | InvalidOperation(message: string)
    /** `ArgumentNullException` for the named parameter. */
    | ArgumentNull(paramName: string)
    /** `ArgumentException` raised by the framework (a duplicate dictionary key, an empty header scheme) or one of its subclasses (`ArgumentOutOfRangeException` for a relative base URI). */
    | ArgumentError
    /** `ApiException` raised when a token cannot be acquired. */
    | ApiError(message: string)
    /** `RestRequestFailedException`: a status code and message, or a wrapped inner error. */
    | RestRequestFailed(statusCode: Option<int>, message: string, inner: Option<Error>)
    /** `NullReferenceException` from dereferencing a null token response. */
    | NullReference
    /** `HttpRequestException`: the remote end could not be reached. */
    | TransportError
    /** `JsonException`: a response body that is not valid JSON. */
    | JsonError
}
