/** The exceptions the client side of the approval protocol can raise. */
module Errors {
  import opened Wrappers

  datatype Error =
    | TransportError                  // network, DNS or connect failure; also a scripted gateway out of answers
    | HttpStatusError(statusCode: int) // `raise_for_status` on a non-2xx response
    | MissingRequestId                // `data["request_id"]` on a registration body without that key
    | TimeoutError(requestId: Option<string>, timeoutSeconds: int) // no decision before the deadline
    | NotImplemented                  // the base interceptor's `before_execute`
    | ForeignError(message: string)   // raised by injected code: revise callback, tool, interrupt
}
