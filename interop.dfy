/**
 * The two clients and the service side by side: how Flask presents what a
 * client posts, how a client reads what the service answers, and what
 * follows for each client. Nothing here changes either side; it states
 * where they disagree.
 */
module Interop {
  import opened Common
  import opened Text
  import opened Wire
  import Service
  import AppView
  import SummarizerView

  /** `request.form.get(name)`: the value of the first text part with that name, if any. */
  function FirstText(fields: seq<FormField>, name: string): (v: Option<string>)
    ensures v.None? <==> forall i :: 0 <= i < |fields| ==> !(fields[i].TextField? && fields[i].name == name)
    ensures v.Some? ==>
      exists i :: 0 <= i < |fields| && fields[i] == TextField(name, v.value) &&
                  forall j :: 0 <= j < i ==> !(fields[j].TextField? && fields[j].name == name)
  {
    if fields == [] then None
    else if fields[0].TextField? && fields[0].name == name then Some(fields[0].value)
    else
      var v := FirstText(fields[1..], name);
      assert forall i :: 1 <= i < |fields| ==> fields[i] == fields[1..][i - 1];
      v
  }

  /** `request.files[name]`: the upload of the first file part with that name, if any. */
  function FirstFile(fields: seq<FormField>, name: string): (f: Option<Upload>)
    ensures f.None? <==> forall i :: 0 <= i < |fields| ==> !(fields[i].FileField? && fields[i].name == name)
    ensures f.Some? ==>
      exists i :: 0 <= i < |fields| && fields[i] == FileField(name, f.value) &&
                  forall j :: 0 <= j < i ==> !(fields[j].FileField? && fields[j].name == name)
  {
    if fields == [] then None
    else if fields[0].FileField? && fields[0].name == name then Some(fields[0].file)
    else
      var f := FirstFile(fields[1..], name);
      assert forall i :: 1 <= i < |fields| ==> fields[i] == fields[1..][i - 1];
      f
  }

  /**
   * The request `summarize` sees for a client's POST /summarize body: JSON
   * takes the JSON branch with both members present as strings; anything
   * else takes the form branch, where a file arrives exactly when a `file`
   * part was sent.
   */
  function ServerView(body: Body): (r: Service.Request)
    ensures body.JsonBody? ==> r == Service.JsonRequest(Some(Service.JsonString(body.text)), Some(body.model))
    ensures !body.JsonBody? ==> r.FormRequest?
    ensures body.FormBody? ==> (r.file.Some? <==> CarriesFile(body))
    ensures body.FormBody? && r.model.Some? ==> TextField("model", r.model.value) in body.fields
    ensures body.NoBody? ==> r.model.None? && r.file.None?
  {
    match body
    case JsonBody(text, model) => Service.JsonRequest(Some(Service.JsonString(text)), Some(model))
    case FormBody(fields) => Service.FormRequest(FirstText(fields, "model"), FirstFile(fields, "file"))
    case NoBody => Service.FormRequest(None, None)
  }

  /**
   * The reply a client gets for a service answer: 200 with `{summary, model}`,
   * or an error status whose `{error}` body has no `summary`. Either way the
   * body parses as JSON.
   */
  function ClientReply(reply: Service.SummarizeReply): (r: Reply<SummaryJson>)
    ensures r.Response? && r.json.Some?
    ensures r.ok <==> reply.Answered?
    ensures reply.Answered? ==> r.json.value.summary == Some(reply.summary)
    ensures reply.Refused? ==> r.json.value.summary.None?
  {
    match reply
    case Answered(summary, _) => Response(true, Some(SummaryJson(Some(summary))))
    case Refused(_) => Response(false, Some(SummaryJson(None)))
  }

  /** Summarizer.js posts typed text as a form part, which the service refuses as "No file uploaded". */
  lemma SummarizerTextIsRefused(model: string, text: string, env: Service.Services)
    ensures Service.Validate(ServerView(FormBody(SummarizerView.SubmitForm(model, text, None))), env)
      == Failure(Service.NoFileUploaded)
  {
    var form := SummarizerView.SubmitForm(model, text, None);
    assert FirstFile(form[1..], "file") == None;
  }

  /** Both clients' file uploads reach the service as the chosen file with the selected model. */
  lemma FileUploadsArriveIntact(model: string, text: string, upload: Upload)
    ensures ServerView(AppView.SummarizeRequest(text, Some(upload), model).body)
      == Service.FormRequest(Some(model), Some(upload))
    ensures ServerView(FormBody(SummarizerView.SubmitForm(model, text, Some(upload))))
      == Service.FormRequest(Some(model), Some(upload))
  {
    var appFields := [FileField("file", upload), TextField("model", model)];
    assert FirstText(appFields[1..], "model") == Some(model);
    var form := SummarizerView.SubmitForm(model, text, Some(upload));
    assert FirstFile(form[1..], "file") == Some(upload);
  }

  /**
   * App.js's typed text reaches the service as JSON; the service accepts it
   * exactly when it holds a character Python does not count as whitespace.
   */
  lemma AppTextAcceptedIff(text: string, model: string, env: Service.Services)
    ensures Service.Validate(ServerView(AppView.SummarizeRequest(text, None, model).body), env)
      == if Blank(text, IsPySpace) then Failure(Service.NoTextFound) else Success(Service.Submission(text, model))
  {
    StripEmptyIffBlank(text, IsPySpace);
  }

  /** U+001C is not JavaScript whitespace, so App.js's guard lets the text through. */
  lemma ClientSendsInformationSeparator()
    ensures !AppView.NothingToSubmit("\U{1C}", None)
  {
    AppView.NothingToSubmitIff("\U{1C}", None);
    assert !IsJsSpace("\U{1C}"[0]);
  }

  /** U+001C is Python whitespace, so the service refuses the text. */
  lemma ServiceRefusesInformationSeparator(env: Service.Services)
    ensures Service.Validate(ServerView(AppView.SummarizeRequest("\U{1C}", None, "bart").body), env)
      == Failure(Service.NoTextFound)
  {
    AppTextAcceptedIff("\U{1C}", "bart", env);
    assert IsPySpace("\U{1C}"[0]);
  }

  /**
   * The clients trim with JavaScript's whitespace and the service strips
   * with Python's: U+001C passes App.js's guard, is refused by the service,
   * and App.js then reports a server error.
   */
  lemma InformationSeparatorPassesOnlyTheClient(env: Service.Services)
    ensures !AppView.NothingToSubmit("\U{1C}", None)
    ensures Service.Validate(ServerView(AppView.SummarizeRequest("\U{1C}", None, "bart").body), env)
      == Failure(Service.NoTextFound)
    ensures AppView.Outcome(ClientReply(Service.Refused(Service.NoTextFound))) == ServerFailed
  {
    ClientSendsInformationSeparator();
    ServiceRefusesInformationSeparator(env);
  }

  /** A refusal reads as a server error in App.js but as "no summary" in Summarizer.js, which ignores the status. */
  lemma RefusalsReadDifferently(rejection: Service.Rejection)
    ensures AppView.Outcome(ClientReply(Service.Refused(rejection))) == ServerFailed
    ensures SummarizerView.Outcome(ClientReply(Service.Refused(rejection))) == NoSummary
  {
  }

  /**
   * Both clients delete with DELETE /delete/<id> and DELETE /clear; the
   * service has no rule for the first and takes only POST on the second,
   * so at the Flask level neither reaches a handler and the table is never
   * emptied from a client.
   */
  lemma ClientDeletesReachNoHandler(id: nat)
    ensures Service.Dispatch(DeleteRequest(id).verb, DeleteRequest(id).route) == Service.NotFound
    ensures Service.Dispatch(ClearRequest.verb, ClearRequest.route) == Service.MethodNotAllowed
  {
  }

  /** The summarise and history requests both clients send do reach their handlers. */
  lemma ClientRequestsReachHandlers(text: string, file: Option<Upload>, model: string)
    ensures Service.Dispatch(AppView.SummarizeRequest(text, file, model).verb, AppView.SummarizeRequest(text, file, model).route) == Service.Handled
    ensures Service.Dispatch(SummarizerView.SubmitRequest(model, text, file).verb, SummarizerView.SubmitRequest(model, text, file).route) == Service.Handled
    ensures Service.Dispatch(HistoryRequest.verb, HistoryRequest.route) == Service.Handled
  {
  }

  /** A stored but empty summary: the row is in the table, yet App.js alerts "No summary received!" and reloads nothing. */
  lemma EmptySummaryIsNotShown(model: string)
    ensures AppView.Outcome(ClientReply(Service.Answered("", model))) == NoSummary
    ensures SummarizerView.Outcome(ClientReply(Service.Answered("", model))) == NoSummary
  {
  }
}
