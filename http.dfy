/** The request-parameter dictionary an engine fills in, the request it turns into, the
    upstream answer, and the web-format library functions the adapters call. */
module Http {
  import opened Basics
  import opened Dicts
  import opened Query

  /** A value of the `params` dictionary (`dict[str, Any]`). */
  datatype ParamValue =
    | Str(s: string)
    | Int(i: int)
    | NoneValue
    | Dict(entries: map<string, string>)
    | Other                                  // any other Python value a delegate may store

  type ParamMap = map<string, ParamValue>

  /** What is handed to the HTTP session: method, url, headers, body and cookies. */
  datatype RequestSpec = RequestSpec(
    httpMethod: string,
    url: string,
    headers: map<string, string>,
    data: Option<string>,
    cookies: map<string, string>)

  /** An upstream answer: status line, body text and the effective url. */
  datatype RawResponse = RawResponse(status: int, reason: string, text: string, url: string)

  /** `urlencode`, `json.dumps`, `urljoin` and `html.unescape`. */
  datatype Libraries = Libraries(
    urlencode: Pairs -> string,
    jsonDumps: Pairs -> string,
    urljoin: (string, string) -> string,
    unescape: string -> string)

  /** A successful status: the 2xx class of section 15.3 of RFC 9110. */
  predicate IsSuccess(status: int)
  {
    200 <= status < 300
  }

  /** The parameters `Engine.search` starts from, before the adapter's `_request`. */
  function DefaultParams(query: ParsedQuery, httpMethod: string): (r: ParamMap)
    // The defaults pass every type assertion except the url, which only `_request` sets.
    ensures ToRequestSpec(r) == Raise(KeyError("url"))
    // With a string url added, they make a request with the engine's method, no headers,
    // no body and no cookies.
    ensures forall u :: ToRequestSpec(r["url" := Str(u)]) == Ok(RequestSpec(httpMethod, u, map[], None, map[]))
  {
    map[
      "searxng_locale" := Str(query.lang),
      "language" := Str(query.lang),
      "time_range" := NoneValue,
      "pageno" := Int(query.page),
      "safesearch" := Int(2),
      "method" := Str(httpMethod),
      "headers" := Dict(map[]),
      "data" := NoneValue,
      "cookies" := Dict(map[])]
  }

  /** The type assertions `Engine.search` makes on the parameters the adapter returned,
      in their order; a missing key raises KeyError. */
  function ToRequestSpec(p: ParamMap): (r: Try<RequestSpec>)
    ensures r.Ok? <==>
              && "method" in p && p["method"].Str?
              && "url" in p && p["url"].Str?
              && "headers" in p && p["headers"].Dict?
              && "cookies" in p && p["cookies"].Dict?
              && "data" in p && (p["data"].Str? || p["data"].NoneValue?)
    ensures r.Ok? ==>
              && r.value.httpMethod == p["method"].s
              && r.value.url == p["url"].s
              && r.value.headers == p["headers"].entries
              && r.value.cookies == p["cookies"].entries
              && r.value.data == (if p["data"].Str? then Some(p["data"].s) else None)
    // Each check in turn, once the earlier ones pass: a missing key is a KeyError, a value
    // of the wrong type an AssertionError.
    ensures "method" !in p ==> r == Raise(KeyError("method"))
    ensures "method" in p && !p["method"].Str? ==> r == Raise(AssertionError)
    ensures "method" in p && p["method"].Str? ==>
              && ("url" !in p ==> r == Raise(KeyError("url")))
              && ("url" in p && !p["url"].Str? ==> r == Raise(AssertionError))
    ensures "method" in p && p["method"].Str? && "url" in p && p["url"].Str? ==>
              && ("headers" !in p ==> r == Raise(KeyError("headers")))
              && ("headers" in p && !p["headers"].Dict? ==> r == Raise(AssertionError))
    ensures "method" in p && p["method"].Str? && "url" in p && p["url"].Str? &&
            "headers" in p && p["headers"].Dict? ==>
              && ("cookies" !in p ==> r == Raise(KeyError("cookies")))
              && ("cookies" in p && !p["cookies"].Dict? ==> r == Raise(AssertionError))
    ensures "method" in p && p["method"].Str? && "url" in p && p["url"].Str? &&
            "headers" in p && p["headers"].Dict? && "cookies" in p && p["cookies"].Dict? ==>
              && ("data" !in p ==> r == Raise(KeyError("data")))
              && ("data" in p && !(p["data"].Str? || p["data"].NoneValue?) ==> r == Raise(AssertionError))
    ensures r.Raise? ==> r.error.KeyError? || r.error == AssertionError
  {
    if "method" !in p then Raise(KeyError("method"))
    else if !p["method"].Str? then Raise(AssertionError)
    else if "url" !in p then Raise(KeyError("url"))
    else if !p["url"].Str? then Raise(AssertionError)
    else if "headers" !in p then Raise(KeyError("headers"))
    else if !p["headers"].Dict? then Raise(AssertionError)
    else if "cookies" !in p then Raise(KeyError("cookies"))
    else if !p["cookies"].Dict? then Raise(AssertionError)
    else if "data" !in p then Raise(KeyError("data"))
    else if !(p["data"].Str? || p["data"].NoneValue?) then Raise(AssertionError)
    else
      Ok(RequestSpec(
        p["method"].s,
        p["url"].s,
        p["headers"].entries,
        if p["data"].Str? then Some(p["data"].s) else None,
        p["cookies"].entries))
  }
}
