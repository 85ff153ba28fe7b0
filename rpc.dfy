/**
 * What a Connect RPC handler in the backend returns: a response, or an error carrying one of
 * the Connect status codes and a message.
 */
module Rpc {
  datatype Code = InvalidArgument | NotFound | OutOfRange | Internal

  /** `connect.NewError(code, err)`, with the message of `err`. */
  datatype Error = Error(code: Code, message: string)

  /** The `X-Hello-Server` header the hello handlers set on every response. */
  const HelloServerHeader := "connectrpc"
}
