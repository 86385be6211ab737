/** The selector-based adapter `_CstmEngine` (shared by `_XPathEngine` and `_JSONEngine`):
    its configuration, the parameters `_request` writes, and what `_response` makes of one
    container node and of a whole response. */
module CustomAdapter {
  import opened Basics
  import opened Dicts
  import opened Query
  import opened Results
  import opened Selectors
  import opened Http
  import opened ResponseLoop

  /** The constructor arguments that are specific to a custom engine. */
  datatype CustomConfig = CustomConfig(
    url: string,
    queryKey: string,
    params: Pairs,
    resultPath: Path,
    titlePath: Path,
    urlPath: Path,
    textPath: Path,
    srcPath: Option<Path>,
    syntax: Syntax)

  /** The message of the ValueError an image engine without `src_path` raises. */
  const MissingSrcPath := "src_path is required for image search"

  /** `{query_key: str(query), **params}`: the query under the query key, then the
      configured parameters, which win on a clash. */
  function RequestData(config: CustomConfig, query: ParsedQuery): Pairs
  {
    Prepend(config.queryKey, query.text, config.params)
  }

  /** The parameters after `_request`: "url" and "data" are set, every other entry is left
      as it was. GET sends the data as a query string, POST as a JSON body, and any other
      method sends neither. */
  function RequestParams(config: CustomConfig, httpMethod: string, libs: Libraries,
                         query: ParsedQuery, params: ParamMap): (r: ParamMap)
    ensures r.Keys == params.Keys + {"url", "data"}
    ensures forall k :: k in params && k != "url" && k != "data" ==> r[k] == params[k]
    ensures httpMethod == "GET" ==>
              r["url"] == Str(config.url + "?" + libs.urlencode(RequestData(config, query))) &&
              r["data"] == NoneValue
    ensures httpMethod == "POST" ==>
              r["url"] == Str(config.url) &&
              r["data"] == Str(libs.jsonDumps(RequestData(config, query)))
    ensures httpMethod != "GET" && httpMethod != "POST" ==>
              r["url"] == Str(config.url) && r["data"] == NoneValue
  {
    var data := RequestData(config, query);
    var url := if httpMethod == "GET" then config.url + "?" + libs.urlencode(data) else config.url;
    var body := if httpMethod == "POST" then Str(libs.jsonDumps(data)) else NoneValue;
    params["url" := Str(url)]["data" := body]
  }

  /** Starting from the defaults of `Engine.search`, a custom engine's request always
      passes the type assertions made before the request is sent, with the engine's own
      method, no headers and no cookies. */
  lemma CustomRequestIsWellTyped(config: CustomConfig, httpMethod: string, libs: Libraries,
                                 query: ParsedQuery)
    ensures var r := ToRequestSpec(RequestParams(config, httpMethod, libs, query,
                                                 DefaultParams(query, httpMethod)));
            var data := RequestData(config, query);
            && r.Ok?
            && r.value.httpMethod == httpMethod
            && r.value.headers == map[] && r.value.cookies == map[]
            && (httpMethod == "GET" ==>
                  r.value.url == config.url + "?" + libs.urlencode(data) && r.value.data == None)
            && (httpMethod == "POST" ==>
                  r.value.url == config.url && r.value.data == Some(libs.jsonDumps(data)))
            && (httpMethod != "GET" && httpMethod != "POST" ==>
                  r.value.url == config.url && r.value.data == None)
  {
    var p := DefaultParams(query, httpMethod);
    assert p["method"] == Str(httpMethod) && p["headers"] == Dict(map[]) && p["cookies"] == Dict(map[]);
  }

  /** Python truthiness of an optional string: present and not empty. */
  predicate Present(s: Option<string>)
  {
    s.Some? && s.value != ""
  }

  /** One iteration of `_CstmEngine._response` on the container node `node`; `base` is
      the response's effective url. Title and url must be present and non-empty; in image
      mode so must the image source. */
  function NodeResult(config: CustomConfig, mode: SearchMode, libs: Libraries, base: string,
                      node: Element): (r: Try<Result>)
    ensures var title := Get(config.syntax, node, Some(config.titlePath));
            var url := Get(config.syntax, node, Some(config.urlPath));
            var src := Get(config.syntax, node, config.srcPath);
            r.Ok? <==> Present(title) && Present(url) && (mode == Images ==> Present(src))
    ensures r.Raise? ==> r.error == AssertionError
    ensures r.Ok? ==> (r.value.ImageResult? <==> mode == Images) && (r.value.WebResult? <==> mode != Images)
    ensures r.Ok? ==>
              && r.value.title == Get(config.syntax, node, Some(config.titlePath)).value
              && r.value.url ==
                 Url(libs.urljoin(base, Get(config.syntax, node, Some(config.urlPath)).value))
              && r.value.text == Snippet(Get(config.syntax, node, Some(config.textPath)))
    ensures r.Ok? && mode == Images ==> r.value.src == Url(Get(config.syntax, node, config.srcPath).value)
  {
    var title := Get(config.syntax, node, Some(config.titlePath));
    if !Present(title) then Raise(AssertionError)
    else
      var link := Get(config.syntax, node, Some(config.urlPath));
      if !Present(link) then Raise(AssertionError)
      else
        var url := Url(libs.urljoin(base, link.value));
        var text := Get(config.syntax, node, Some(config.textPath));
        if mode == Images then
          var src := Get(config.syntax, node, config.srcPath);
          if !Present(src) then Raise(AssertionError)
          else Ok(ImageResult(title.value, url, Snippet(text), Url(src.value)))
        else
          Ok(WebResult(title.value, url, Snippet(text)))
  }

  /** `NodeResult` as a loop step: a container node is never skipped. */
  function NodeStep(config: CustomConfig, mode: SearchMode, libs: Libraries, base: string)
    : Element -> Try<Option<Result>>
  {
    node =>
      match NodeResult(config, mode, libs, base, node)
      case Ok(result) => Ok(Some(result))
      case Raise(e) => Raise(e)
  }

  /** What `_CstmEngine._response` returns for an upstream answer. */
  function Responses(config: CustomConfig, mode: SearchMode, libs: Libraries,
                     response: RawResponse): Try<seq<Result>>
  {
    var root := ParseResponse(config.syntax, response.text);
    var nodes :- Iter(config.syntax, root, config.resultPath);
    Collect(NodeStep(config, mode, libs, response.url), nodes)
  }

  /** The custom adapter yields exactly one result per container node, in container order,
      or fails with the first failing node's AssertionError; every result is an image
      result in image mode and a web result otherwise. */
  lemma NodesNormalized(config: CustomConfig, mode: SearchMode, libs: Libraries, base: string,
                        nodes: seq<Element>)
    ensures var r := Collect(NodeStep(config, mode, libs, base), nodes);
            && (r.Ok? <==> forall i :: 0 <= i < |nodes| ==> NodeResult(config, mode, libs, base, nodes[i]).Ok?)
            && (r.Raise? ==> r.error == AssertionError)
            && (r.Ok? ==> |r.value| == |nodes|)
            && (r.Ok? ==> forall i :: 0 <= i < |nodes| ==>
                            NodeResult(config, mode, libs, base, nodes[i]) == Ok(r.value[i]))
            && (r.Ok? ==> forall i :: 0 <= i < |r.value| ==> (r.value[i].ImageResult? <==> mode == Images))
  {
    var step := NodeStep(config, mode, libs, base);
    var r := Collect(step, nodes);
    CollectOk(step, nodes);
    if r.Ok? {
      CollectNoSkips(step, nodes);
    } else {
      CollectFailure(step, nodes);
    }
  }
}
