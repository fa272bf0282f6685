/** The parts of an Express request and response that the cache and the handlers look at. */
module Http {
  import opened Wrappers
  import opened Json

  datatype HttpMethod = GET | POST | PUT | DELETE

  /**
   * `req.method` (here `verb`), `req.baseUrl` (the router's mount path), `req.path` (the path
   * inside the router), `req.user?.userId` (set by token authentication), and
   * `JSON.stringify(req.query)`, kept as the opaque text it is.
   */
  datatype Request = Request(verb: HttpMethod, baseUrl: string, path: string, userId: Option<string>, query: string)

  /** A response: its status code and the JSON body passed to `res.json`. */
  datatype Response = Response(status: int, body: Json)

  /** The body `{ error: message }` that every failing handler sends. */
  function ErrorBody(message: string): Json {
    JObj([("error", JStr(message))])
  }

  /** The body `{ message: text }` of a successful write. */
  function MessageBody(text: string): Json {
    JObj([("message", JStr(text))])
  }

  /**
   * Express's default, non-strict routing: a route path other than `/` is also
   * reached when the request adds one trailing `/`.
   */
  predicate Routes(route: string, path: string) {
    path == route || path == route + "/"
  }

  /** Status codes in the success range [200, 300). */
  predicate Success(status: int) {
    200 <= status < 300
  }
}
