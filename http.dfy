/**
 * The values the service worker receives from its host: intercepted
 * requests (already parsed into the URL parts the worker looks at),
 * response snapshots, and the outcome of one network fetch.
 */
module Http {

  datatype Option<+T> = None | Some(value: T)

  /** The identity under which a response is cached: the request URL. */
  type Key = string

  /** The name of one versioned cache store, such as "roteiros-app-cache-v2". */
  type Tag = string

  /**
   * An intercepted request. `verb` is the HTTP method and `url` the full
   * URL (the cache key); the
   * other string fields are the parts of it that `new URL(...)` yields.
   */
  datatype Request = Request(
    verb: string,
    url: Key,
    protocol: string,
    hostname: string,
    origin: string,
    pathname: string)

  /** An immutable snapshot of a response: its status and its body. */
  datatype Response = Response(status: int, body: string) {
    /** `Response.ok`: the status lies in the range 200 to 299. */
    predicate Ok() {
      200 <= status <= 299
    }
  }

  /** What one call to `fetch` settles to. */
  datatype NetOutcome = Delivered(response: Response) | NetworkError {

    /** Whether the worker would keep this outcome in a cache store. */
    predicate Storable() {
      Delivered? && response.Ok()
    }

    /**
     * What the caller receives from a promise chain that returns the
     * network response and turns a failure into `undefined`.
     */
    function Reply(): Option<Response> {
      match this
      case Delivered(resp) => Some(resp)
      case NetworkError => None
    }
  }
}
