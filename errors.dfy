/** The exceptions the core can raise, one constructor per cause. */
module Errors {

  datatype Error =
    /** ValueError from ApiConfig.from_env: no API key variable holds a non-empty value. */
    | MissingApiKey(message: string)
    /** ValueError from float() on a NYAMANGA_TIMEOUT that does not parse. */
    | InvalidTimeout(raw: string)
    /** ApiError from _handle_response: the reply's status was 300 or more. */
    | ApiError(message: string)
    /** Any exception raised by the HTTP library while posting. */
    | TransportFailure
    /** OSError from open() on an image or mask path. */
    | OpenFailed(path: string)
    /** AttributeError, KeyError or TypeError while unwrapping a reply of the wrong shape. */
    | MalformedReply
}
