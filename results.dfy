/** The common result shape every adapter produces. The url module is not part of this
    model: a `Url` carries the string it was built from. */
module Results {
  import opened Basics

  datatype Url = Url(raw: string)

  datatype Result =
    | WebResult(title: string, url: Url, text: Option<string>)
    | ImageResult(title: string, url: Url, text: Option<string>, src: Url)
    | AnswerResult(answer: string, url: Url)

  /** Python's `text or None` on an optional string: an empty snippet is no snippet. */
  function Snippet(text: Option<string>): (r: Option<string>)
    ensures r != Some("")
    ensures r.Some? ==> r == text
    ensures text.Some? && text.value != "" ==> r == text
  {
    if text == Some("") then None else text
  }
}
