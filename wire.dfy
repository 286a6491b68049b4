/**
 * What passes between the browser clients and the summarisation service:
 * uploads, history entries, the requests a client issues, the replies it
 * gets back, and the effects a client has on the page and the user.
 */
module Wire {
  import opened Common

  /** A file chosen in the browser and posted as a multipart part. */
  datatype Upload = Upload(filename: string, bytes: seq<bv8>)

  /** One element of the JSON array GET /history returns: `{id, text, summary, model}`. */
  datatype HistoryItem = HistoryItem(id: nat, text: string, summary: string, model: string)

  datatype Verb = Get | Post | Delete

  /** The service endpoints a client addresses. */
  datatype Route = SummarizeRoute | HistoryRoute | DeleteRoute(id: nat) | ClearRoute

  /** One `FormData.append(name, value)`. */
  datatype FormField = FileField(name: string, file: Upload) | TextField(name: string, value: string)

  datatype Body =
    | NoBody
    | JsonBody(text: string, model: string)     // JSON.stringify({ text, model })
    | FormBody(fields: seq<FormField>)          // a multipart FormData, fields in append order

  datatype ClientRequest = ClientRequest(verb: Verb, route: Route, body: Body)

  const HistoryRequest := ClientRequest(Get, HistoryRoute, NoBody)

  function DeleteRequest(id: nat): ClientRequest { ClientRequest(Delete, DeleteRoute(id), NoBody) }

  const ClearRequest := ClientRequest(Delete, ClearRoute, NoBody)

  /** The request carries a form part `file` holding an upload. */
  predicate CarriesFile(body: Body)
  {
    body.FormBody? && exists i :: 0 <= i < |body.fields| && body.fields[i].FileField? && body.fields[i].name == "file"
  }

  /** The request carries a `text` value, as a JSON member or as a form part. */
  predicate CarriesText(body: Body)
  {
    body.JsonBody? ||
    (body.FormBody? && exists i :: 0 <= i < |body.fields| && body.fields[i].TextField? && body.fields[i].name == "text")
  }

  /**
   * How an awaited `fetch` settles: the promise rejects (no server, CORS,
   * connection refused), or it resolves with a status and a body whose
   * `res.json()` either parses into the expected shape or rejects (None).
   */
  datatype Reply<T> = NetworkError | Response(ok: bool, json: Option<T>)

  /** The `summary` member of a POST /summarize reply, when present as a string. */
  datatype SummaryJson = SummaryJson(summary: Option<string>)

  /** JavaScript truthiness of `data.summary`: present and not the empty string. */
  predicate Truthy(summary: Option<string>)
  {
    summary.Some? && summary.value != ""
  }

  /** How a client reads the reply to a submission. */
  datatype SubmitOutcome = ServerFailed | NoSummary | Summarized(summary: string)

  /** A plain-text file handed to the browser for download. */
  datatype TextFile = TextFile(name: string, content: string)

  /** What a client does that outlives its handler: dialogs, requests, re-rendering the busy button, downloads. */
  datatype Effect =
    | Alert(message: string)
    | Confirm(message: string)
    | Send(request: ClientRequest)
    | Loading(on: bool)
    | Save(file: TextFile)
}
