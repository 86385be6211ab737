/** The two families of selector-based custom engines: XPath over an HTML document
    (`_XPathEngine`) and JSONPath over a decoded JSON document (`_JSONEngine`). Parsing and
    path evaluation belong to lxml and jsonpath_ng and are functions supplied with the
    syntax; what is modelled is what the adapters do with their answers. */
module Selectors {
  import opened Basics

  /** A node of a parsed document: an lxml element or a JSONPath datum. */
  type Element

  /** A compiled path expression: an `etree.XPath` or a `jsonpath_ng.JSONPath`. */
  type Path

  /** One item of an XPath answer: a string (text or attribute value) or an element. */
  datatype XPathItem = TextItem(text: string) | ElementItem(element: Element)

  datatype Syntax =
      /** `html.document_fromstring`, evaluation of an XPath, and
          `html.tostring(e, method="text", with_tail=False)`. */
    | XPath(document: string -> Element,
            evaluate: (Path, Element) -> seq<XPathItem>,
            textOf: Element -> string)
      /** `response.json()`, `path.find(root)`, and the `.value` of a match (None for a JSON null). */
    | Json(decode: string -> Element,
           find: (Path, Element) -> seq<Element>,
           valueOf: Element -> Option<string>)

  /** `_parse_response`: the document root of a response body. */
  function ParseResponse(syntax: Syntax, body: string): Element
  {
    match syntax
    case XPath(document, _, _) => document(body)
    case Json(decode, _, _) => decode(body)
  }

  /** How many matches `path` has under `root`. */
  function MatchCount(syntax: Syntax, root: Element, path: Path): nat
  {
    match syntax
    case XPath(_, evaluate, _) => |evaluate(path, root)|
    case Json(_, find, _) => |find(path, root)|
  }

  /** `_iter`: the nodes `path` selects, in document order. An XPath answer holding a
      string instead of an element fails the adapter's assertion. */
  function Iter(syntax: Syntax, root: Element, path: Path): (r: Try<seq<Element>>)
    ensures syntax.Json? ==> r == Ok(syntax.find(path, root))
    ensures syntax.XPath? ==>
              var items := syntax.evaluate(path, root);
              && (r.Ok? <==> forall i :: 0 <= i < |items| ==> items[i].ElementItem?)
              && (r.Raise? ==> r.error == AssertionError)
              && (r.Ok? ==> |r.value| == |items| &&
                            forall i :: 0 <= i < |items| ==> items[i] == ElementItem(r.value[i]))
  {
    match syntax
    case Json(_, find, _) => Ok(find(path, root))
    case XPath(_, evaluate, _) =>
      var items := evaluate(path, root);
      if forall i :: 0 <= i < |items| ==> items[i].ElementItem? then
        Ok(seq(|items|, i requires 0 <= i < |items| => items[i].element))
      else
        Raise(AssertionError)
  }

  /** `_get`: nothing when there is no path or the path has no match under `root`;
      otherwise the first match alone, rendered as a string. */
  function Get(syntax: Syntax, root: Element, path: Option<Path>): (r: Option<string>)
    ensures path.None? ==> r.None?
    ensures path.Some? && MatchCount(syntax, root, path.value) == 0 ==> r.None?
    ensures syntax.XPath? && path.Some? && MatchCount(syntax, root, path.value) > 0 ==>
              r.Some? &&
              r.value == match syntax.evaluate(path.value, root)[0]
                         case TextItem(s) => s
                         case ElementItem(e) => syntax.textOf(e)
    ensures syntax.Json? && path.Some? && MatchCount(syntax, root, path.value) > 0 ==>
              r == syntax.valueOf(syntax.find(path.value, root)[0])
  {
    match path
    case None => None
    case Some(p) =>
      match syntax
      case XPath(_, evaluate, textOf) =>
        var items := evaluate(p, root);
        if |items| == 0 then None
        else (match items[0]
              case TextItem(s) => Some(s)
              case ElementItem(e) => Some(textOf(e)))
      case Json(_, find, valueOf) =>
        var found := find(p, root);
        if |found| == 0 then None else valueOf(found[0])
  }
}
