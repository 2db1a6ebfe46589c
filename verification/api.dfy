/** Shared vocabulary of the REST handlers: who is asking, and how a handler answers. */
module Api {

  /** The id the auth middleware attaches to a request (`req.user.id`). */
  type UserId = string

  /** The outcome of a route handler, named after the HTTP status it sends: 200, 400, 401 or 404. */
  datatype Status = Ok | BadRequest | Unauthorized | NotFound
}
