/** What the route handlers share: a JSON response with a status code, the outcome of reading a JSON
    request body, and the outcome of a store insert, which may throw. */
module Server {

  /** `NextResponse.json(body, { status })`; a response without an explicit status has status 200. */
  datatype Response<B> = Response(status: int, body: B)

  /** The outcome of `await request.json()`: a body that does not parse makes it throw. */
  datatype Json<T> = Malformed | Parsed(value: T)

  /** The outcome of a store `create`: the row gets a fresh id and creation time, or the call throws
      (a failed constraint, an unreachable store). */
  datatype CreateOutcome = Created(id: string, at: int) | Threw

  /** What a client-side `fetch` of a route yields: the request fails outright, or a reply arrives with
      its status and a body that may or may not parse as JSON. */
  datatype Fetched<T> = NetworkError | Replied(status: int, json: Json<T>) {
    /** `response.ok`: a reply with a status in the 2xx range. */
    predicate Ok() {
      Replied? && 200 <= status <= 299
    }
  }

  const OK := 200
  const CREATED := 201
  const BAD_REQUEST := 400
  const UNAUTHORIZED := 401
  const FORBIDDEN := 403
  const INTERNAL_SERVER_ERROR := 500
}
