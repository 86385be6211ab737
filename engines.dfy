/** Engines: the common engine object, its two adapter kinds, `Engine.search` with its
    status gate, and the capability filter `get_engines`. */
module Engines {
  import opened Basics
  import opened Extensions
  import opened Query
  import opened Results
  import opened Selectors
  import opened Http
  import opened ResponseLoop
  import CustomAdapter
  import SearxAdapter

  /** An engine's trust weight, a float the engine code only stores. */
  type Weight

  /** What `searx.engines.load_engine` hands back: whether the engine pages, its initial
      `search_type`, and its `request` and `response` functions. Both read the engine's
      `search_type` at call time, so they take it as their first argument; `response` also
      sees the parameters the request was sent with. */
  datatype SearxDefinition = SearxDefinition(
    paging: bool,
    searchType: string,
    request: (string, string, ParamMap) -> ParamMap,
    response: (string, ParamMap, RawResponse) -> seq<SearxAdapter.Record>)

  /** One entry of `searx.settings["engines"]`. */
  datatype SettingsEntry = SettingsEntry(name: string, options: SearxAdapter.Record)

  /** A loaded searx engine module; the adapter sets its `search_type` before each request. */
  class SearxModule {
    const definition: SearxDefinition
    var searchType: string

    constructor (definition: SearxDefinition)
      ensures this.definition == definition && searchType == definition.searchType
    {
      this.definition := definition;
      searchType := definition.searchType;
    }
  }

  /** The adapter behind an engine: a selector-based custom engine or a searx delegate. */
  datatype Adapter =
    | Custom(config: CustomAdapter.CustomConfig)
    | Searx(delegate: SearxModule)

  /** The request-parameter dictionary that `_request` fills in place. */
  class Params {
    var entries: ParamMap

    constructor (entries: ParamMap)
      ensures this.entries == entries
    {
      this.entries := entries;
    }
  }

  /** The position of the first settings entry called `name`, as the `for ... else` loop of
      `_SearxEngine.__init__` finds it. */
  function FirstNamed(settings: seq<SettingsEntry>, name: string): (r: Option<nat>)
    ensures r.None? <==> forall i :: 0 <= i < |settings| ==> settings[i].name != name
    ensures r.Some? ==> r.value < |settings| && settings[r.value].name == name &&
                        forall j :: 0 <= j < r.value ==> settings[j].name != name
  {
    if settings == [] then None
    else if settings[0].name == name then Some(0)
    else
      match FirstNamed(settings[1..], name)
      case None => None
      case Some(i) => Some(i + 1)
  }

  class Engine {
    const name: string
    const mode: SearchMode
    const weight: Weight
    const supportedLanguages: set<string>
    var queryExtensions: QueryExtensions
    const httpMethod: string
    const adapter: Adapter

    /** `Engine.__init__`: stores its arguments. */
    constructor (name: string, mode: SearchMode, weight: Weight, supportedLanguages: set<string>,
                 queryExtensions: QueryExtensions, httpMethod: string, adapter: Adapter)
      ensures this.name == name && this.mode == mode && this.weight == weight
      ensures this.supportedLanguages == supportedLanguages
      ensures this.queryExtensions == queryExtensions
      ensures this.httpMethod == httpMethod && this.adapter == adapter
    {
      this.name := name;
      this.mode := mode;
      this.weight := weight;
      this.supportedLanguages := supportedLanguages;
      this.queryExtensions := queryExtensions;
      this.httpMethod := httpMethod;
      this.adapter := adapter;
    }

    /** The objects a search may change: the searx module's `search_type`. */
    function Frame(): set<object>
    {
      if adapter.Searx? then {adapter.delegate} else {}
    }

    /** `_CstmEngine.__init__`: an image engine must have a `src_path`; any other mode
        accepts a missing one. */
    static method NewCustom(name: string, mode: SearchMode, weight: Weight,
                            supportedLanguages: set<string>, queryExtensions: QueryExtensions,
                            httpMethod: string, config: CustomAdapter.CustomConfig)
      returns (r: Try<Engine>)
      ensures r.Raise? <==> mode == Images && config.srcPath.None?
      ensures r.Raise? ==> r.error == ValueError(CustomAdapter.MissingSrcPath)
      ensures r.Ok? ==> fresh(r.value) && r.value.adapter == Custom(config)
      ensures r.Ok? ==> r.value.name == name && r.value.mode == mode && r.value.weight == weight
      ensures r.Ok? ==> r.value.supportedLanguages == supportedLanguages
      ensures r.Ok? ==> r.value.queryExtensions == queryExtensions && r.value.httpMethod == httpMethod
    {
      var engine := new Engine(name, mode, weight, supportedLanguages, queryExtensions,
                               httpMethod, Custom(config));
      if mode == Images && config.srcPath.None? {
        return Raise(ValueError(CustomAdapter.MissingSrcPath));
      }
      return Ok(engine);
    }

    /** `_SearxEngine.__init__`: the first settings entry with the engine's name is loaded;
        no such entry, or one that does not load, is a ValueError. An engine whose delegate
        pages gains PAGING on top of its declared extensions. */
    static method NewSearx(name: string, mode: SearchMode, weight: Weight,
                           supportedLanguages: set<string>, queryExtensions: QueryExtensions,
                           httpMethod: string, settings: seq<SettingsEntry>,
                           load: SettingsEntry -> Option<SearxDefinition>)
      returns (r: Try<Engine>)
      ensures FirstNamed(settings, name).None? ==>
                r == Raise(ValueError("Searx engine " + name + " not found"))
      ensures FirstNamed(settings, name).Some? && load(settings[FirstNamed(settings, name).value]).None? ==>
                r == Raise(ValueError("Failed to load searx engine " + name))
      ensures r.Ok? <==> FirstNamed(settings, name).Some? &&
                         load(settings[FirstNamed(settings, name).value]).Some?
      ensures r.Ok? ==>
                && FirstNamed(settings, name).Some?
                && var loaded := load(settings[FirstNamed(settings, name).value]);
                && loaded.Some?
                && fresh(r.value) && r.value.adapter.Searx? && fresh(r.value.adapter.delegate)
                && r.value.adapter.delegate.definition == loaded.value
                && r.value.adapter.delegate.searchType == loaded.value.searchType
                && r.value.name == name && r.value.mode == mode && r.value.weight == weight
                && r.value.supportedLanguages == supportedLanguages
                && r.value.httpMethod == httpMethod
                && Members(r.value.queryExtensions) ==
                   Members(queryExtensions) + (if loaded.value.paging then {Paging} else {})
    {
      var i := 0;
      while i < |settings| && settings[i].name != name
        invariant 0 <= i <= |settings|
        invariant forall j :: 0 <= j < i ==> settings[j].name != name
      {
        i := i + 1;
      }
      if i == |settings| {
        return Raise(ValueError("Searx engine " + name + " not found"));
      }
      var loaded := load(settings[i]);
      if loaded.None? {
        return Raise(ValueError("Failed to load searx engine " + name));
      }
      var delegate := new SearxModule(loaded.value);
      var engine := new Engine(name, mode, weight, supportedLanguages, queryExtensions,
                               httpMethod, Searx(delegate));
      if delegate.definition.paging {
        engine.queryExtensions := engine.queryExtensions | Bit(Paging);
        UnionMembers(queryExtensions, Bit(Paging));
        MembersBits(Bit(Paging));
      }
      return Ok(engine);
    }

    /** The parameters a search sends: `Engine.search`'s defaults after `_request`. */
    function SentParams(libs: Libraries, modes: ModeValues, query: ParsedQuery): ParamMap
    {
      var defaults := DefaultParams(query, httpMethod);
      match adapter
      case Custom(config) => CustomAdapter.RequestParams(config, httpMethod, libs, query, defaults)
      case Searx(delegate) =>
        delegate.definition.request(SearxAdapter.SearchType(name, mode, modes), query.text, defaults)
    }

    /** What the adapter's `_response` returns for a 2xx answer to `sent`. */
    function Responses(libs: Libraries, modes: ModeValues, response: RawResponse, sent: ParamMap)
      : Try<seq<Result>>
    {
      match adapter
      case Custom(config) => CustomAdapter.Responses(config, mode, libs, response)
      case Searx(delegate) =>
        var searchType := SearxAdapter.SearchType(name, mode, modes);
        SearxAdapter.Responses(libs.unescape, response,
                               delegate.definition.response(searchType, sent, response))
    }

    /** What `Engine.search` returns when `transport` is the HTTP session. */
    function SearchOutcome(libs: Libraries, modes: ModeValues,
                           transport: RequestSpec -> RawResponse, query: ParsedQuery)
      : (r: Try<seq<Result>>)
      // A failed type assertion or missing key stops the search before anything is sent.
      ensures ToRequestSpec(SentParams(libs, modes, query)).Raise? ==>
                r == Raise(ToRequestSpec(SentParams(libs, modes, query)).error)
      // A StatusCodeError reports the status and reason of the answer to the sent request.
      ensures ToRequestSpec(SentParams(libs, modes, query)).Ok? ==>
                var response := transport(ToRequestSpec(SentParams(libs, modes, query)).value);
                !IsSuccess(response.status) ==>
                  r == Raise(StatusCodeError(response.status, response.reason))
    {
      var sent := SentParams(libs, modes, query);
      var spec :- ToRequestSpec(sent);
      var response := transport(spec);
      if !IsSuccess(response.status) then Raise(StatusCodeError(response.status, response.reason))
      else Responses(libs, modes, response, sent)
    }

    /** `_request` of either adapter, filling `params` in place and returning it. */
    method Request(libs: Libraries, modes: ModeValues, query: ParsedQuery, params: Params)
      returns (out: Params)
      modifies params, Frame()
      ensures out == params
      ensures adapter.Custom? ==>
                params.entries ==
                CustomAdapter.RequestParams(adapter.config, httpMethod, libs, query, old(params.entries))
      ensures adapter.Searx? ==>
                && adapter.delegate.searchType == SearxAdapter.SearchType(name, mode, modes)
                && params.entries ==
                   adapter.delegate.definition.request(adapter.delegate.searchType, query.text,
                                                       old(params.entries))
    {
      match adapter
      case Custom(config) =>
        var data := CustomAdapter.RequestData(config, query);
        params.entries := params.entries["url" :=
          Str(if httpMethod == "GET" then config.url + "?" + libs.urlencode(data) else config.url)];
        params.entries := params.entries["data" :=
          if httpMethod == "POST" then Str(libs.jsonDumps(data)) else NoneValue];
        out := params;
      case Searx(delegate) =>
        delegate.searchType := modes.Value(mode);
        if name == "mojeek" && mode == Web {
          delegate.searchType := "";
        }
        params.entries := delegate.definition.request(delegate.searchType, query.text, params.entries);
        out := params;
    }

    /** `_CstmEngine._response`: one result per container node, in order. */
    method CustomResponse(config: CustomAdapter.CustomConfig, libs: Libraries, response: RawResponse)
      returns (r: Try<seq<Result>>)
      ensures r == CustomAdapter.Responses(config, mode, libs, response)
    {
      var root := ParseResponse(config.syntax, response.text);
      var nodes :- Iter(config.syntax, root, config.resultPath);
      ghost var step := CustomAdapter.NodeStep(config, mode, libs, response.url);
      var results: seq<Result> := [];
      for i := 0 to |nodes|
        invariant Collect(step, nodes[..i]) == Ok(results)
      {
        var node := nodes[i];
        CollectSnoc(step, nodes, i);
        var title := Get(config.syntax, node, Some(config.titlePath));
        if !CustomAdapter.Present(title) {
          CollectStopsAt(step, nodes, i);
          return Raise(AssertionError);
        }
        var link := Get(config.syntax, node, Some(config.urlPath));
        if !CustomAdapter.Present(link) {
          CollectStopsAt(step, nodes, i);
          return Raise(AssertionError);
        }
        var url := Url(libs.urljoin(response.url, link.value));
        var text := Get(config.syntax, node, Some(config.textPath));
        if mode == Images {
          var src := Get(config.syntax, node, config.srcPath);
          if !CustomAdapter.Present(src) {
            CollectStopsAt(step, nodes, i);
            return Raise(AssertionError);
          }
          results := results + [ImageResult(title.value, url, Snippet(text), Url(src.value))];
          continue;
        }
        results := results + [WebResult(title.value, url, Snippet(text))];
      }
      assert nodes[..|nodes|] == nodes;
      return Ok(results);
    }

    /** `_SearxEngine._response`: the delegate's records, filtered and converted in order. */
    method SearxResponse(delegate: SearxModule, libs: Libraries, response: RawResponse,
                         sent: ParamMap)
      returns (r: Try<seq<Result>>)
      ensures r == SearxAdapter.Responses(libs.unescape, response,
                                          delegate.definition.response(delegate.searchType, sent, response))
    {
      if response.text == "" {
        return Ok([]);
      }
      var records := delegate.definition.response(delegate.searchType, sent, response);
      ghost var step := SearxAdapter.RecordStep(libs.unescape);
      var results: seq<Result> := [];
      for i := 0 to |records|
        invariant Collect(step, records[..i]) == Ok(results)
      {
        CollectSnoc(step, records, i);
        var converted := SearxAdapter.RecordResult(libs.unescape, records[i]);
        match converted
        case Raise(e) =>
          CollectStopsAt(step, records, i);
          return Raise(e);
        case Ok(None) =>
          assert results + Emitted<Result>(None) == results;
          continue;
        case Ok(Some(result)) =>
          results := results + [result];
      }
      assert records[..|records|] == records;
      return Ok(results);
    }

    /** `_response` of either adapter. */
    method Response(libs: Libraries, modes: ModeValues, response: RawResponse, sent: ParamMap)
      returns (r: Try<seq<Result>>)
      requires adapter.Searx? ==> adapter.delegate.searchType == SearxAdapter.SearchType(name, mode, modes)
      ensures r == Responses(libs, modes, response, sent)
    {
      match adapter
      case Custom(config) =>
        r := CustomResponse(config, libs, response);
      case Searx(delegate) =>
        r := SearxResponse(delegate, libs, response, sent);
    }

    /** `Engine.search`: default parameters, the adapter's `_request`, the type assertions,
        the request itself, and the adapter's `_response` for a 2xx answer only. */
    method Search(libs: Libraries, modes: ModeValues, transport: RequestSpec -> RawResponse,
                  query: ParsedQuery)
      returns (r: Try<seq<Result>>)
      modifies Frame()
      ensures adapter.Searx? ==> adapter.delegate.searchType == SearxAdapter.SearchType(name, mode, modes)
      ensures r == SearchOutcome(libs, modes, transport, query)
    {
      var params := new Params(DefaultParams(query, httpMethod));
      params := Request(libs, modes, query, params);
      var spec :- ToRequestSpec(params.entries);
      var response := transport(spec);
      if !IsSuccess(response.status) {
        return Raise(StatusCodeError(response.status, response.reason));
      }
      r := Response(libs, modes, response, params.entries);
    }
  }

  /** A search raises StatusCodeError exactly when its request was sent and answered
      outside 2xx: neither adapter's `_response` raises it, so a 2xx answer never does. */
  lemma StatusGate(engine: Engine, libs: Libraries, modes: ModeValues,
                   transport: RequestSpec -> RawResponse, query: ParsedQuery)
    ensures var outcome := engine.SearchOutcome(libs, modes, transport, query);
            var spec := ToRequestSpec(engine.SentParams(libs, modes, query));
            (outcome.Raise? && outcome.error.StatusCodeError?) <==>
              (spec.Ok? && !IsSuccess(transport(spec.value).status))
  {
    var sent := engine.SentParams(libs, modes, query);
    var spec := ToRequestSpec(sent);
    if spec.Ok? {
      var response := transport(spec.value);
      if IsSuccess(response.status) {
        match engine.adapter
        case Custom(config) =>
          var root := ParseResponse(config.syntax, response.text);
          var nodes := Iter(config.syntax, root, config.resultPath);
          if nodes.Ok? {
            CustomAdapter.NodesNormalized(config, engine.mode, libs, response.url, nodes.value);
          }
        case Searx(delegate) =>
          var searchType := SearxAdapter.SearchType(engine.name, engine.mode, modes);
          SearxAdapter.RecordsNormalized(libs.unescape,
                                         delegate.definition.response(searchType, sent, response));
      }
    }
  }

  /** The three conditions of `get_engines`, with `in` on flags as in the source. */
  predicate Eligible(engine: Engine, query: ParsedQuery)
    reads engine
  {
    && engine.mode == query.mode
    && (engine.supportedLanguages == {} || query.lang in engine.supportedLanguages)
    && Contains(engine.queryExtensions, query.required)
  }

  /** `get_engines`: every registered engine of the query's mode that serves the query's
      language (or every language) and supports every extension the query requires, and no
      other engine. */
  function GetEngines(registry: set<Engine>, query: ParsedQuery): (selected: set<Engine>)
    reads registry
    ensures selected <= registry
    ensures forall e :: e in registry ==>
              (e in selected <==>
                 && e.mode == query.mode
                 && (e.supportedLanguages == {} || query.lang in e.supportedLanguages)
                 && Members(query.required) <= Members(e.queryExtensions))
  {
    ContainsIsSubsetAll();
    set e | e in registry && Eligible(e, query)
  }
}
