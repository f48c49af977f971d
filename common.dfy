/** Values shared by every part of the delivery backend: optional request fields,
    HTTP error responses and JavaScript's notion of a "present" string. */
module Common {

  datatype Option<+T> = None | Some(value: T)

  /** Document identifiers (ObjectId strings) and user ids as the routes see them. */
  type Id = string

  /** A signed credential, and the payload a credential carries. */
  type Token = string
  type Claims = map<string, string>

  /** An error response: the HTTP status and the message the route sends. */
  datatype Failure = Failure(status: int, message: string)

  /** The outcome of a route: the payload it answers with status 200 (`Ok`) or, for a
      route that creates a document, with status 201 (`Created`); or the error response. */
  datatype Result<+T> = Ok(value: T) | Created(value: T) | Err(failure: Failure)

  /** The outcome of a middleware: continue with the next handler, or answer with an error. */
  datatype Outcome = Pass | Fail(failure: Failure)

  const BadRequest: int := 400
  const Unauthorized: int := 401
  const Forbidden: int := 403
  const NotFound: int := 404
  const InternalError: int := 500

  /** `if (field)` / `!field` on a request string: undefined and "" are falsy. */
  predicate Present(o: Option<string>)
  {
    o.Some? && o.value != ""
  }

  /** The value of an optional field, or `current` when it is missing: a schema default,
      or the stored value an update body leaves alone. */
  function WithDefault<T>(o: Option<T>, current: T): T
  {
    if o.Some? then o.value else current
  }

  /** `field || fallback` on a request string. */
  function OrElse(o: Option<string>, fallback: string): (r: string)
    ensures Present(o) ==> r == o.value
    ensures !Present(o) ==> r == fallback
  {
    if Present(o) then o.value else fallback
  }
}
