/** Option for absent values, and the HTTP reply shape shared by both servers. */
module Wrappers {

  datatype Option<+T> = None | Some(value: T)

  /** A handler either answers with a value (status 200/201) or stops with an error status. */
  datatype Reply<+T> = Ok(value: T) | Fail(status: int)

  const BadRequest: int := 400
  const Unauthorized: int := 401
  const NotFound: int := 404
  const Conflict: int := 409
  const ServerError: int := 500
  const Success: int := 200
  const Created: int := 201
}
