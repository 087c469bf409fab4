/** Option and the reply a route handler sends. */
module Wrappers {

  datatype Option<+T> = None | Some(value: T)

  /** What an Express route handler answers: a status code and, on success, a body. */
  datatype Reply<+T> =
    | Ok(value: T)                    // 200
    | Created(value: T)               // 201
    | BadRequest(errors: seq<string>) // 400, the validation messages
    | Unauthorized                    // 401
    | NotFound                        // 404
    | ServerError                     // 500, an exception caught by the handler
  {
    /** The HTTP status code of the reply. */
    function Status(): (code: nat)
      ensures 200 <= code < 600
      ensures code < 300 <==> (Ok? || Created?)
    {
      match this
      case Ok(_) => 200
      case Created(_) => 201
      case BadRequest(_) => 400
      case Unauthorized => 401
      case NotFound => 404
      case ServerError => 500
    }

    /** `response.ok` on the client: a 2xx status. */
    predicate IsSuccess() { Ok? || Created? }
  }
}
