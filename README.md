# Metasearch engine core in Dafny

This project models the engine layer of a metasearch service (`searchengine/engines.py`)
and the request checks of its web front end (`searchengine/__init__.py`).

- **Engines.** An engine is an object with a name, a mode (web or images), a weight, the
  languages it serves and the query extensions it supports (site filter, quoted phrases,
  paging). Behind it is one of two adapters:
  - a selector-based custom engine, configured with XPath or JSONPath expressions;
  - a delegate to a searx engine definition.
- **Construction.** Constructing an engine checks its configuration. A searx engine takes
  PAGING from its delegate.
- **Search.** `Engine.search` fills default request parameters, lets the adapter complete
  them, checks their types and sends the request. A 2xx answer goes to the adapter's
  `_response`, which turns the raw records into web, image and answer results. Any other
  status raises `StatusCodeError`.
- **Selection.** `get_engines` picks the engines of the registry that fit a parsed query.
- **Front end.** `_parse_params` validates `q`, `mode` and `page`. The image proxy refuses
  links whose signature does not match.

Modules, leaves first:
- `Basics`: Option, the `Error` exceptions, and `Try` (a value or a raised exception).
- `Extensions`: the query-extension flag as a bit pattern, and its set view.
- `Query`: the search mode, the values of its members, and the parsed query.
- `Results`: the result union.
- `Dicts`: insertion-ordered string dictionaries.
- `Http`: the parameter dictionary, the request, the response and the library functions.
- `Selectors`: the XPath and JSONPath `_parse_response` (`ParseResponse`), `_iter` and `_get`.
- `ResponseLoop`: the loop shape both `_response` methods share.
- `CustomAdapter`: `_CstmEngine`.
- `SearxAdapter`: `_SearxEngine`.
- `Engines`: the engine class, its constructors, `_request`/`_response`/`search`, and
  `get_engines`.
- `App`: `strip`, `int`, `_parse_params` and the image gate.

The parts that change state are classes:
- `Engine` has a mutable `queryExtensions` field.
- `SearxModule` holds the searx engine's `search_type`, which is reassigned before every
  request.
- `Params` holds the parameter dictionary that `_request` fills in place.

The two `_response` loops are methods with loop invariants. Each is proved equal to a
function (`CustomAdapter.Responses`, `SearxAdapter.Responses`) that is built from a generic
fold, `ResponseLoop.Collect`. The properties are lemmas about that fold.

Behaviour worth knowing, as the code has it:
- `page` is any integer: `_parse_params` never checks that it is at least 1
  (searchengine/__init__.py:106-111).
- A custom image engine is refused only when `src_path` is None
  (searchengine/engines.py:144-145); an empty path is not checked.
- `query_extensions` is written once after `Engine.__init__`, inside `_SearxEngine.__init__`
  (searchengine/engines.py:277-278). The searx module's `search_type` is reassigned before
  every request (searchengine/engines.py:281-283).
- Errors are the Python exceptions the code raises: `ValueError` from the constructors,
  `AssertionError` and `KeyError` from the checks on parameters and results, and
  `StatusCodeError` for a non-2xx answer.

## Model

| member | source | states |
|---|---|---|
| `Extensions.ContainsIsSubset` | searchengine/engines.py:412 | The flag test `g in f` holds exactly when the extensions of `g` are a subset of those of `f`. |
| `Extensions.UnionMembers` | searchengine/engines.py:277-278 | `f \| g` holds exactly the extensions of `f` and those of `g`. |
| `Extensions.MembersDetermineFlag` | searchengine/engines.py:412 | Two flags with the same extensions are the same flag, so the set view loses nothing. |
| `Query.ModeValues.Lookup` | searchengine/__init__.py:102 | `SearchMode(s)` gives a member whose value is `s`. It fails exactly when `s` is no member's value. |
| `Query.LookupValue` | searchengine/__init__.py:101-104 | Looking up a member's own value gives that member back, when the values are distinct. |
| `Results.Snippet` | searchengine/engines.py:198-201 | `text or None` never gives the empty string and keeps every non-empty snippet. |
| `Dicts.Prepend` | searchengine/engines.py:171 | `{query_key: str(query), **params}` puts the query key first. A configured value for a key overrides the query. All other configured entries follow in order. Distinct keys stay distinct. |
| `Dicts.Without` | searchengine/engines.py:171 | Removing a key leaves every other lookup unchanged. It shortens a dictionary with distinct keys by one exactly when the key was present. |
| `Http.DefaultParams` | searchengine/engines.py:79-89 | The defaults of `search` pass every type assertion except the url check, which raises KeyError("url"). With any string url added, they make a request with the engine's method, no headers, no body and no cookies. |
| `Http.ToRequestSpec` | searchengine/engines.py:92-96 | The request is formed exactly when method and url are strings, headers and cookies are dicts, and data is a string or None. Its fields are those values. Otherwise the first failing check decides, in the order method, url, headers, cookies, data: a missing key raises KeyError for that key, and a wrong type raises AssertionError. |
| `Selectors.Iter` | searchengine/engines.py:211-216 | JSONPath `_iter` returns every match. XPath `_iter` returns the matched elements in order. It fails with AssertionError exactly when a match is a string. |
| `Selectors.Get` | searchengine/engines.py:218-247 | `_get` returns None when the path is None or has no match. Otherwise it renders the first match only: an XPath string as itself, an element as its text, a JSON match as its value. |
| `CustomAdapter.RequestParams` | searchengine/engines.py:170-178 | `_request` sets only "url" and "data" and keeps every other parameter. GET sends `url?urlencode(data)` with no body. POST sends the bare url with `json.dumps(data)`. Any other method sends the bare url and no body. |
| `CustomAdapter.CustomRequestIsWellTyped` | searchengine/engines.py:79-96 | Starting from the defaults of `search`, a custom engine's parameters always pass the type assertions. The request uses the engine's method, has no headers or cookies, and has the GET/POST url and body above. |
| `CustomAdapter.NodeResult` | searchengine/engines.py:185-201 | A node succeeds exactly when its title and url are present and non-empty, and, in image mode, its src too. Otherwise it raises AssertionError. The result is an image result exactly in image mode. Its url is the link joined to the response url, and an empty snippet becomes None. |
| `CustomAdapter.NodesNormalized` | searchengine/engines.py:180-203 | The custom `_response` succeeds exactly when every container node does. It then yields one result per node, in node order, each the node's own result, all image results in image mode. Otherwise it raises AssertionError. |
| `SearxAdapter.SearchType` | searchengine/engines.py:281-283 | The search type is the mode's value, except "" for mojeek in web mode. |
| `SearxAdapter.RecordRules` | searchengine/engines.py:293-336 | A record is dropped exactly when it has `number_of_results` or `suggestion`, or an empty url. A non-string url raises. An answer takes precedence and is non-empty. Otherwise `img_src` gives an image result whose source is `thumbnail_src` if present, else `img_src`, and needs the images template. Otherwise the result is a web result with a non-empty title and `""` content as None. |
| `SearxAdapter.RecordResult` | searchengine/engines.py:293-336 | One iteration of the searx `_response` loop. Its only exception is AssertionError. It skips the record (`continue`) exactly when the record has `number_of_results` or `suggestion`, or an empty string url. It succeeds exactly when the record is skipped or passes every assertion of its kind: a non-empty string answer; or a string title with a non-empty image source and the images template; or a non-empty title with string content. `RecordRules` states the result each kind gives. |
| `SearxAdapter.ImageSnippet` | searchengine/engines.py:321 | `result.get("content") or None` never gives the empty string, and it keeps a non-empty string content. |
| `SearxAdapter.ImageSource` | searchengine/engines.py:313 | `result.get("thumbnail_src", result["img_src"])`: the thumbnail when the record has one, and otherwise `img_src`. |
| `SearxAdapter.RecordsNormalized` | searchengine/engines.py:286-338 | The searx `_response` succeeds exactly when no record raises. It yields no more results than records, in input order: the k-th result comes from the k-th record that is not dropped. Otherwise it raises AssertionError. |
| `ResponseLoop.CollectOk` | searchengine/engines.py:183-203 | A `_response` loop succeeds exactly when no iteration raises. |
| `ResponseLoop.CollectFailure` | searchengine/engines.py:290-338 | A failing loop raises the exception of its first raising item, and every earlier item succeeded. |
| `ResponseLoop.CollectStopsAt` | searchengine/engines.py:290-338 | An exception at item i after a clean prefix is the exception of the whole loop. |
| `ResponseLoop.CollectKept` | searchengine/engines.py:290-338 | A successful loop yields, in order, exactly the values of the items that are not skipped. |
| `ResponseLoop.CollectShorter` | searchengine/engines.py:290-338 | A loop never yields more results than it reads items. |
| `ResponseLoop.CollectNoSkips` | searchengine/engines.py:183-203 | A loop that skips nothing yields one value per item, item by item. |
| `Engines.FirstNamed` | searchengine/engines.py:269-276 | It finds the first settings entry with the engine's name, or reports that none has it. |
| `Engines.Engine.constructor` | searchengine/engines.py:41-57 | `Engine.__init__` stores its arguments. |
| `Engines.Engine.NewCustom` | searchengine/engines.py:118-153 | Construction raises ValueError exactly for an image engine without `src_path`; every other mode accepts a missing one. |
| `Engines.Engine.NewSearx` | searchengine/engines.py:251-278 | Construction succeeds exactly when a settings entry has the engine's name and the first such entry loads. An unknown name raises "not found", and an entry that does not load raises "failed to load". A new engine delegates to the loaded definition. Its extensions are the declared ones, plus PAGING exactly when the delegate pages. |
| `Engines.Engine.Request` | searchengine/engines.py:170-284 | Custom `_request` updates the parameter dict in place to `RequestParams`. Searx `_request` first sets the delegate's search type, then hands the dict to the delegate's request. |
| `Engines.Engine.CustomResponse` | searchengine/engines.py:180-203 | The loop over container nodes returns exactly `CustomAdapter.Responses`. |
| `Engines.Engine.SearxResponse` | searchengine/engines.py:286-338 | An empty body gives []. Otherwise the loop over the delegate's records returns exactly `SearxAdapter.Responses`. |
| `Engines.Engine.Response` | searchengine/engines.py:109-111 | `_response` dispatches to the engine's adapter and returns exactly the adapter's `Responses` function. |
| `Engines.Engine.Search` | searchengine/engines.py:73-111 | `search` builds the defaults, runs `_request` and the type assertions, and sends the request. A non-2xx answer raises StatusCodeError; a 2xx answer returns the adapter's `_response`. Afterwards the delegate's search type is the one for this engine. |
| `Engines.Engine.SearchOutcome` | searchengine/engines.py:79-111 | What `search` returns. A failed type assertion or a missing key raises before anything is sent. A non-2xx answer raises StatusCodeError carrying that answer's status and reason. `StatusGate` proves that a 2xx answer never raises it. |
| `Engines.StatusGate` | searchengine/engines.py:106-111 | A search raises StatusCodeError exactly when its request was sent and the status is outside 200-299, the successful class of section 15.3 of RFC 9110. A 2xx answer never raises it. |
| `Engines.GetEngines` | searchengine/engines.py:404-413 | An engine of the registry is selected exactly when its mode is the query's mode, its language set is empty or holds the query's language, and its extensions include every extension the query requires. |
| `App.StripBy` | searchengine/__init__.py:95 | Stripping by a whitespace set returns the slice of the input between its leading and trailing whitespace. The result does not start or end with whitespace, and it is empty exactly when the input is all whitespace. `strip()` uses the `isspace` set (`Strip`); `int()` uses that set without U+001C-U+001F (`IntSpace`). |
| `App.ParseInt` | searchengine/__init__.py:107 | `int()` accepts a string exactly when, between its `int()` whitespace, it holds an optional sign and then ASCII digits. Single underscores may stand only between two digits, and there may be at most 4300 digits, CPython's default `sys.int_info.default_max_str_digits`. The value is the decimal value of the digits, negated for a leading `-`, so a `-` gives at most 0 and any other start at least 0. |
| `App.LeadingSeparatorRefused` | searchengine/__init__.py:106-109 | A string starting with U+001C-U+001F is refused by `int()`, though `strip()` would remove that character. Such a page is answered with 400. |
| `App.TooManyDigits` | searchengine/__init__.py:106-109 | A string of more than 4300 digits is refused by `int()`, so such a page is answered with 400. |
| `App.SignedDigits` | searchengine/__init__.py:107 | `int()` of an optional `+` or `-` followed by well-formed digits within the limit gives the decimal value of the digits, negated for `-`. |
| `App.PlusAndLeadingZeros` | searchengine/__init__.py:107 | A `+` sign and leading zeros leave the value unchanged: `int("+" + "0"*z + str(n)) == n`, within the digit limit. |
| `App.MisplacedSeparator` | searchengine/__init__.py:107 | `int()` rejects digits that start or end with an underscore. |
| `App.ParseIntShow` | searchengine/__init__.py:107 | `int(str(n)) == n` for every integer of at most 4300 digits, negative ones included. |
| `App.ParseParams` | searchengine/__init__.py:93-111 | A request is accepted exactly when `q` is present and not blank after `strip()`, `mode` names a mode, and `page` parses as an integer. A missing `q` is 400 "No search term was received", and a blank one is 400 "The search term is empty". Then a missing or unknown `mode` is 400 "Invalid search mode", then a missing or non-integer `page` is 400 "Invalid page number". On success the query is the stripped, non-empty `q`, and the mode and page are the parsed values. |
| `App.AnyIntegerPage` | searchengine/__init__.py:106-111 | With a usable query and mode, `page=str(n)` is accepted as page n for every integer n of at most 4300 digits. There is no lower bound. |
| `App.AuthorizeImage` | searchengine/__init__.py:169-175 | A missing url is 404 before the signature is looked at. A missing or wrong sha is 401. Only a url whose sha equals `gen_sha(url)` reaches the fetch. |
| `App.SignedLinkIsProxied` | searchengine/__init__.py:173-175 | A url carrying its own server signature is proxied whatever else the query holds. Any other signature for it is refused with 401. |

## Left out

- The network call in `Engine.search` (searchengine/engines.py:98-104) is a function parameter `transport`. `curl_cffi` sessions and their errors are not modelled.
- The image fetch and its checks in `img` (searchengine/__init__.py:177-193) are I/O. The model stops at the decision to proxy.
- The Starlette app, lifespan, templates, `http_exception`, `index`, `search`, `results`, `opensearch` and the gettext setup are routing and rendering. Error details are the untranslated message ids.
- search-engine/__init__.py is concurrency and I/O plumbing. search-engine/lang.py is a statistical model call. searchengine/metrics.py is sqlite persistence.
- The query, search, results, url, sha and template_filter modules are not part of this model:
  - a parsed query carries `str(query)`, its language, mode and page, and the value of `required_extensions()`;
  - ranking and deduplication are not modelled;
  - `gen_sha` is a function parameter.
- Only the `WEB` and `IMAGES` members of `SearchMode` are modelled, because they are the ones the code names. Their string values are a parameter (`ModeValues`).
- The flag bit values (SITE=1, QUOTES=2, PAGING=4) are not known from the code shown. No stated property depends on them.
- lxml, jsonpath_ng, `urljoin`, `urlencode`, `json.dumps`, `html.unescape`, and searx's `load_engine`, `request` and `response` are function values. They are not reimplemented.
- Every library and delegate call is total in the model and never raises. Among the exceptions left out are `urljoin`'s ValueError on a malformed link such as `"http://[x"` (searchengine/engines.py:191), any exception from `Url(...)`, lxml and jsonpath_ng, and an exception from searx's `request` or `response` on an answer it cannot read (searchengine/engines.py:284, 292). In the code each of these propagates out of `_response` or `search`. So `NodeResult`, `NodesNormalized`, `RecordsNormalized` and `StatusGate` hold only for calls that return normally.
- `Url(...)` normalisation is not modelled. A `Url` carries the string it was built from, and the response url passed to `urljoin` is the raw effective url.
- An XPath evaluation that returns a string, number or boolean instead of a list is not modelled.
- A JSON match whose value is neither a string nor null is not modelled.
- A document that lxml or `response.json()` cannot parse is not modelled.
- `SearxAdapter.ImageSnippet`: a non-string truthy `content` on an image record is passed through unchecked by the code. The model gives no snippet for it.
- `App.ParseInt` accepts ASCII digits only. Python's `int` also accepts other Unicode decimal digits.
- A repeated query parameter has one value per key in the model, the one Starlette's `query_params[...]` returns.
- Python assertions are modelled as raising AssertionError. Running with `-O`, which strips them, is not modelled.
- The module-level engine table (searchengine/engines.py:341-401) is configuration. `get_engines` finds engines by introspecting the module; here it takes the registry as a set of engines.
- Default constructor arguments are not modelled: every argument is explicit. `weight` is an opaque value that is only stored. `_log` is diagnostic output.
