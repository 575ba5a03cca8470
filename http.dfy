/** Values the worker receives from and hands back to the browser: requests,
    responses, and the outcome of one `fetch` (an oracle, since the network is
    not modelled). */
module Http {

  datatype Option<+T> = None | Some(value: T)

  /** `a || b` on two awaited lookups: the first one that found something. */
  function OrElse<T>(a: Option<T>, b: Option<T>): (r: Option<T>)
    ensures r.Some? <==> a.Some? || b.Some?
    ensures a.Some? ==> r == a
    ensures a.None? ==> r == b
  {
    if a.Some? then a else b
  }

  /** A cache key: the identity of a request (its URL), or a relative URL string
      such as "./index.html". URL resolution is not modelled, so keys are opaque. */
  type Key = string

  /** A response as far as the worker looks at it: its status and its body. */
  datatype Response = Response(status: int, body: string)
  {
    /** `response.ok`: the status is in the range 200-299. */
    predicate Ok() { 200 <= status <= 299 }
  }

  /** The parts of a parsed request URL the worker reads. `href` is the
      request's identity when it is used as a cache key. */
  datatype Url = Url(href: string, origin: string, pathname: string)

  /** An intercepted request: its method (`verb`), its URL, its `mode`, and its
      `accept` header (`None` when the header is absent). */
  datatype Request = Request(verb: string, url: Url, mode: string, accept: Option<string>)
  {
    function CacheKey(): Key { url.href }
  }

  /** What one call of `fetch` did: `Some(response)` when it resolved (whatever
      the status), `None` when it threw (network failure). */
  type FetchOutcome = Option<Response>
}
