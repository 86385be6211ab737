/** The delegated adapter `_SearxEngine`: which search type it hands the searx engine, and
    how one record of the searx engine's answer becomes a result, a skip or a failure. */
module SearxAdapter {
  import opened Basics
  import opened Query
  import opened Results
  import opened Http
  import opened ResponseLoop

  /** A result record as a searx engine returns it: a dictionary of arbitrary values. */
  type Record = map<string, ParamValue>

  /** The `search_type` set before every request: the mode's value, except that mojeek's
      web search wants the empty search type. */
  function SearchType(name: string, mode: SearchMode, modes: ModeValues): (t: string)
    ensures name == "mojeek" && mode == Web ==> t == ""
    ensures !(name == "mojeek" && mode == Web) ==> t == modes.Value(mode)
  {
    if name == "mojeek" && mode == Web then "" else modes.Value(mode)
  }

  /** A non-empty string value. */
  predicate NonEmptyStr(v: ParamValue)
  {
    v.Str? && v.s != ""
  }

  /** `result.get("content") or None` for an image record. */
  function ImageSnippet(record: Record): (r: Option<string>)
    ensures r != Some("")
    ensures "content" in record && NonEmptyStr(record["content"]) ==> r == Some(record["content"].s)
  {
    if "content" in record && record["content"].Str? then Snippet(Some(record["content"].s))
    else None
  }

  /** The image source: `thumbnail_src` when the record has one, `img_src` otherwise. */
  function ImageSource(record: Record): (r: ParamValue)
    requires "img_src" in record
    ensures r == record["img_src"] || ("thumbnail_src" in record && r == record["thumbnail_src"])
    ensures "thumbnail_src" in record ==> r == record["thumbnail_src"]
  {
    if "thumbnail_src" in record then record["thumbnail_src"] else record["img_src"]
  }

  /** One iteration of `_SearxEngine._response`: `Ok(None)` is a skipped record. */
  function RecordResult(unescape: string -> string, record: Record): (r: Try<Option<Result>>)
    ensures r.Raise? ==> r.error == AssertionError
    // The record passes every assertion of its kind: answer, image or web.
    ensures r.Ok? <==>
              || "number_of_results" in record || "suggestion" in record
              || ("url" in record && record["url"].Str? &&
                  (|| record["url"].s == ""
                   || (if "answer" in record then NonEmptyStr(record["answer"])
                       else "title" in record && record["title"].Str? &&
                            if "img_src" in record then
                              NonEmptyStr(ImageSource(record)) &&
                              "template" in record && record["template"] == Str("images.html")
                            else
                              record["title"].s != "" && "content" in record && record["content"].Str?)))
    ensures r == Ok(None) <==>
              "number_of_results" in record || "suggestion" in record ||
              ("url" in record && record["url"] == Str(""))
  {
    if "number_of_results" in record || "suggestion" in record then Ok(None)
    else if !("url" in record && record["url"].Str?) then Raise(AssertionError)
    else if record["url"].s == "" then Ok(None)
    else
      var url := Url(record["url"].s);
      if "answer" in record then
        if NonEmptyStr(record["answer"]) then Ok(Some(AnswerResult(record["answer"].s, url)))
        else Raise(AssertionError)
      else if !("title" in record && record["title"].Str?) then Raise(AssertionError)
      else if "img_src" in record then
        var src := ImageSource(record);
        if !NonEmptyStr(src) then Raise(AssertionError)
        else if !("template" in record && record["template"] == Str("images.html")) then
          Raise(AssertionError)
        else
          Ok(Some(ImageResult(record["title"].s, url, ImageSnippet(record), Url(unescape(src.s)))))
      else if record["title"].s == "" then Raise(AssertionError)
      else if !("content" in record && record["content"].Str?) then Raise(AssertionError)
      else Ok(Some(WebResult(record["title"].s, url, Snippet(Some(record["content"].s)))))
  }

  /** The rules one record goes through: what is dropped, what is required, and which
      kind of result it becomes. */
  lemma RecordRules(unescape: string -> string, record: Record)
    ensures var r := RecordResult(unescape, record);
            && (r.Raise? ==> r.error == AssertionError)
            // Count records and suggestions are dropped, whatever else they hold.
            && ("number_of_results" in record || "suggestion" in record ==> r == Ok(None))
            // Otherwise the url must be a string; an empty one drops the record.
            && (!("number_of_results" in record || "suggestion" in record) ==>
                  (!("url" in record && record["url"].Str?) ==> r.Raise?) &&
                  ("url" in record && record["url"] == Str("") ==> r == Ok(None)))
            && (r == Ok(None) <==>
                  "number_of_results" in record || "suggestion" in record ||
                  ("url" in record && record["url"] == Str("")))
            && (r.Ok? && r.value.Some? ==>
                  "url" in record && NonEmptyStr(record["url"]) && r.value.value.url == Url(record["url"].s))
            // An answer takes precedence and is never empty.
            && (r.Ok? && r.value.Some? && "answer" in record ==>
                  NonEmptyStr(record["answer"]) &&
                  r.value.value == AnswerResult(record["answer"].s, Url(record["url"].s)))
            && (r.Ok? && r.value.Some? && "answer" !in record && "img_src" in record ==>
                  && r.value.value.ImageResult?
                  && NonEmptyStr(ImageSource(record))
                  && r.value.value.src == Url(unescape(ImageSource(record).s))
                  && "title" in record && record["title"].Str?
                  && r.value.value.title == record["title"].s
                  && r.value.value.text == ImageSnippet(record)
                  && "template" in record && record["template"] == Str("images.html"))
            && (r.Ok? && r.value.Some? && "answer" !in record && "img_src" !in record ==>
                  && r.value.value.WebResult?
                  && "title" in record && NonEmptyStr(record["title"])
                  && r.value.value.title == record["title"].s
                  && "content" in record && record["content"].Str?
                  && r.value.value.text == (if record["content"].s == "" then None else Some(record["content"].s)))
  {
  }

  function RecordStep(unescape: string -> string): Record -> Try<Option<Result>>
  {
    record => RecordResult(unescape, record)
  }

  /** What `_SearxEngine._response` returns, given the records the searx engine parsed
      out of a non-empty response. An empty body gives no results. */
  function Responses(unescape: string -> string, response: RawResponse, records: seq<Record>)
    : Try<seq<Result>>
  {
    if response.text == "" then Ok([])
    else Collect(RecordStep(unescape), records)
  }

  /** The delegated adapter keeps the input order, never yields more results than records,
      and yields exactly the records `RecordResult` does not skip, or fails with the first
      failing record's AssertionError. */
  lemma RecordsNormalized(unescape: string -> string, records: seq<Record>)
    ensures var r := Collect(RecordStep(unescape), records);
            var kept := Kept(RecordStep(unescape), records);
            && (r.Ok? <==> forall i :: 0 <= i < |records| ==> RecordResult(unescape, records[i]).Ok?)
            && (r.Raise? ==> r.error == AssertionError)
            && (r.Ok? ==> |r.value| <= |records| && |r.value| == |kept|)
            && (r.Ok? ==> forall k :: 0 <= k < |kept| ==>
                            RecordResult(unescape, records[kept[k]]) == Ok(Some(r.value[k])))
  {
    var step := RecordStep(unescape);
    var r := Collect(step, records);
    CollectOk(step, records);
    if r.Ok? {
      CollectKept(step, records);
    } else {
      CollectFailure(step, records);
    }
  }
}
