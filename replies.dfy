/** The replies of the `POST` handlers, as status code and JSON shape. */
module Replies {

  /** `201 { message, data }`, `400 { error: 'Validation failed', details }`,
      `400 { error: 'Email already registered', message }`, or `500`. */
  datatype PostReply<D> =
    | Created(message: string, data: D)
    | ValidationFailed(details: seq<string>)
    | AlreadyRegistered(message: string)
    | ServerError

  /** The HTTP status code of a reply. */
  function Status<D>(r: PostReply<D>): (code: int)
    ensures code == 201 <==> r.Created?
    ensures code == 500 <==> r.ServerError?
    ensures code == 400 <==> r.ValidationFailed? || r.AlreadyRegistered?
  {
    match r
    case Created(_, _) => 201
    case ValidationFailed(_) => 400
    case AlreadyRegistered(_) => 400
    case ServerError => 500
  }
}
