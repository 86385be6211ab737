/** What the engine code reads from the query module, which is not part of this model:
    the search mode enum and the parsed query. The parser itself and
    `required_extensions()` are outside the model; a parsed query carries the values they
    produce. */
module Query {
  import opened Basics
  import opened Extensions

  /** The two members of `SearchMode` that the engine code names. */
  datatype SearchMode = Web | Images

  /** The string values of the `SearchMode` members (`SearchMode.WEB.value`, ...). */
  datatype ModeValues = ModeValues(web: string, images: string) {
    /** Enum values are distinct. */
    predicate Valid() { web != images }

    function Value(m: SearchMode): string
    {
      match m
      case Web => web
      case Images => images
    }

    /** `SearchMode(s)`: the member whose value is `s`, or None where Python raises ValueError. */
    function Lookup(s: string): (r: Option<SearchMode>)
      ensures r.Some? ==> Value(r.value) == s
      ensures r.None? <==> s != web && s != images
    {
      if s == web then Some(Web)
      else if s == images then Some(Images)
      else None
    }
  }

  /** Looking up a member's own value gives that member back. */
  lemma LookupValue(modes: ModeValues, m: SearchMode)
    requires modes.Valid()
    ensures modes.Lookup(modes.Value(m)) == Some(m)
  {
  }

  /** A parsed query, reduced to what the engines read of it: `str(query)`, the language,
      the mode, the page and the result of `required_extensions()`. */
  datatype ParsedQuery = ParsedQuery(
    text: string,
    lang: string,
    mode: SearchMode,
    page: int,
    required: QueryExtensions)
}
