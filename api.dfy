/** What the forms exchange with the classification server. The transport
    itself is not modelled: a request is recorded as its payload, and the
    server's answer is given to a submit handler as a Response value, either
    the response body or a failure with whatever `message` the error body
    carried. */
module Api {

  datatype Option<+T> = None | Some(value: T)

  /** The outcome of one request. `Fail(None)` stands for a transport error
      (no response at all) and for an error body whose `message` is absent or
      falsy (`null`, `0`, `false`); `Fail(Some(m))` for an error body whose
      `message` is the string m. */
  datatype Response<+D> = Ok(data: D) | Fail(message: Option<string>)

  /** `err.response?.data?.message || fallback`: the server's message when it
      is truthy (a non-empty string), the form's fixed default otherwise. So
      the shown error is always one of the two, and it is never empty when
      the default is not. */
  function ErrorMessage(message: Option<string>, fallback: string): (r: string)
    ensures message.Some? && message.value != [] ==> r == message.value
    ensures message.None? || message.value == [] ==> r == fallback
    ensures r == fallback || message == Some(r)
    ensures fallback != [] ==> r != []
  {
    match message
    case Some(m) => if m != [] then m else fallback
    case None => fallback
  }

  /** A CSV upload as the browser hands it over: only the declared media type
      is ever inspected. */
  datatype File = File(name: string, mimeType: string, content: seq<bv8>)

  /** Body of POST /api/classify. */
  datatype Classification = Classification(kind: string, confidence: real)

  /** One row of a batch report. */
  datatype ScoredRequirement = ScoredRequirement(requirement: string, confidence: real)

  /** Body of POST /api/classify/file. Its counts are the server's and are
      not checked by the client. */
  datatype BatchReport = BatchReport(
    total_count: int, fr_count: int, nfr_count: int,
    functional_requirements: seq<ScoredRequirement>,
    non_functional_requirements: seq<ScoredRequirement>)

  datatype SimilarRequirement = SimilarRequirement(id: Option<int>, text: string, similarity: real)

  /** Body of POST /api/analyze. */
  datatype Analysis = Analysis(classification: Classification, similar_requirements: seq<SimilarRequirement>)

  /** Body of POST /api/search. */
  datatype SearchResult = SearchResult(requirements: seq<SimilarRequirement>)

  /** A multipart form: its fields in the order they were appended. */
  datatype FormData = FormData(entries: seq<(string, File)>)
}
