/**
 * The `Summarizer` component of frontend/src/components/Summarizer.js, a
 * second client with its own rules: it always posts multipart, clears
 * the summary and error when a submission starts, keeps the draft after
 * success, never looks at the HTTP status, and downloads with a model
 * header. Requests settle as the parameter says; `effects` records
 * dialogs, requests and downloads.
 */
module SummarizerView {
  import opened Common
  import opened Text
  import opened Wire

  const EmptyInputAlert := "Please enter text or upload a file!"
  const NoSummaryError := "Failed to generate summary."
  const UnreachableError := "Server not responding."

  /** The component's state. */
  datatype ViewState = ViewState(
    text: string, model: string, file: Option<Upload>,
    summary: string, history: seq<HistoryItem>, loading: bool, error: string)

  /**
   * The multipart form of a submission: `model` first, then the file if
   * one is chosen, otherwise the text. Never both.
   */
  function SubmitForm(model: string, text: string, file: Option<Upload>): (form: seq<FormField>)
    ensures |form| == 2 && form[0] == TextField("model", model)
    ensures CarriesFile(FormBody(form)) <==> file.Some?
    ensures CarriesText(FormBody(form)) <==> file.None?
    ensures file.Some? ==> form[1] == FileField("file", file.value)
    ensures file.None? ==> form[1] == TextField("text", text)
  {
    if file.Some? then
      var form := [TextField("model", model), FileField("file", file.value)];
      assert form[1].FileField? && form[1].name == "file";
      form
    else
      var form := [TextField("model", model), TextField("text", text)];
      assert form[1].TextField? && form[1].name == "text";
      form
  }

  /** `new FormData()` and its `append` calls, in order. */
  method BuildForm(model: string, text: string, file: Option<Upload>) returns (form: seq<FormField>)
    ensures form == SubmitForm(model, text, file)
  {
    form := [];
    form := form + [TextField("model", model)];
    if file.Some? {
      form := form + [FileField("file", file.value)];
    } else {
      form := form + [TextField("text", text)];
    }
  }

  /**
   * How `handleSubmit` reads a reply: a rejection or a body that does not
   * parse is "not responding"; otherwise only `data.summary` matters,
   * whatever the status.
   */
  function Outcome(reply: Reply<SummaryJson>): (o: SubmitOutcome)
    ensures reply.NetworkError? || reply.json.None? ==> o == ServerFailed
    ensures o.Summarized? <==> reply.Response? && reply.json.Some? && Truthy(reply.json.value.summary)
    ensures o == NoSummary <==> reply.Response? && reply.json.Some? && !Truthy(reply.json.value.summary)
    ensures o.Summarized? ==> o.summary == reply.json.value.summary.value && o.summary != ""
  {
    match reply
    case NetworkError => ServerFailed
    case Response(_, json) =>
      if json.None? then ServerFailed
      else if Truthy(json.value.summary) then Summarized(json.value.summary.value)
      else NoSummary
  }

  /** The status is never looked at: an error status with the same body reads the same as success. */
  lemma OutcomeIgnoresStatus(json: Option<SummaryJson>)
    ensures Outcome(Response(false, json)) == Outcome(Response(true, json))
  {
  }

  /** `fetchHistory` takes whatever list the reply body holds, with no status check. */
  function FetchedHistory(previous: seq<HistoryItem>, reply: Reply<seq<HistoryItem>>): (h: seq<HistoryItem>)
    ensures reply.Response? && reply.json.Some? ==> h == reply.json.value
    ensures reply.NetworkError? || reply.json.None? ==> h == previous
  {
    if reply.Response? && reply.json.Some? then reply.json.value else previous
  }

  /** As for submissions, the history status is never looked at. */
  lemma FetchedHistoryIgnoresStatus(previous: seq<HistoryItem>, json: Option<seq<HistoryItem>>)
    ensures FetchedHistory(previous, Response(false, json)) == FetchedHistory(previous, Response(true, json))
  {
  }

  /** The downloaded file: `summary_<model>.txt` holding a "Model:" header and then the summary. */
  function DownloadFile(content: string, modelName: string): (f: TextFile)
    ensures f.name == "summary_" + modelName + ".txt"
    ensures |f.content| == 7 + |modelName| + 11 + |content|
    ensures f.content[..7] == "Model: "
    ensures f.content[7..7 + |modelName|] == ToUpper(modelName)
    ensures f.content[7 + |modelName|..7 + |modelName| + 11] == "\n\nSummary:\n"
    ensures f.content[|f.content| - |content|..] == content
  {
    var header := "Model: " + ToUpper(modelName) + "\n\nSummary:\n";
    assert |header| == 7 + |modelName| + 11;
    assert header[..7] == "Model: " && header[7..7 + |modelName|] == ToUpper(modelName);
    assert header[7 + |modelName|..] == "\n\nSummary:\n";
    var body := header + content;
    assert body[..|header|] == header && body[|header|..] == content;
    TextFile("summary_" + modelName + ".txt", body)
  }

  /** The POST /summarize request carrying a submission's form. */
  function SubmitRequest(model: string, text: string, file: Option<Upload>): (r: ClientRequest)
    ensures r.verb == Post && r.route == SummarizeRoute && r.body.FormBody?
    ensures CarriesFile(r.body) <==> file.Some?
    ensures CarriesText(r.body) <==> file.None?
  {
    ClientRequest(Post, SummarizeRoute, FormBody(SubmitForm(model, text, file)))
  }

  /**
   * The state once `handleSubmit` has read its reply: a summary is shown,
   * anything else sets the matching error. The draft, the model and the
   * history are kept.
   */
  function AfterReply(s: ViewState, reply: Reply<SummaryJson>): (t: ViewState)
    ensures t.text == s.text && t.file == s.file && t.model == s.model
    ensures t.history == s.history && t.loading == s.loading
    ensures Outcome(reply).Summarized? ==> t == s.(summary := Outcome(reply).summary)
    ensures Outcome(reply) == NoSummary ==> t == s.(error := NoSummaryError)
    ensures Outcome(reply) == ServerFailed ==> t == s.(error := UnreachableError)
  {
    match Outcome(reply)
    case Summarized(summary) => s.(summary := summary)
    case NoSummary => s.(error := NoSummaryError)
    case ServerFailed => s.(error := UnreachableError)
  }

  /** What reading the reply adds: one history fetch after a summary, nothing otherwise. */
  function ReplyEffects(reply: Reply<SummaryJson>): (e: seq<Effect>)
    ensures Outcome(reply).Summarized? ==> e == [Send(HistoryRequest)]
    ensures !Outcome(reply).Summarized? ==> e == []
  {
    if Outcome(reply).Summarized? then [Send(HistoryRequest)] else []
  }

  /** The state after a submission past the guard: summary and error cleared, the reply read, not busy. */
  function Submitted(s: ViewState, reply: Reply<SummaryJson>): ViewState
  {
    AfterReply(s.(summary := "", error := ""), reply).(loading := false)
  }

  /** The effects of a submission past the guard: busy, the post, the reply's effects, not busy. */
  function SubmitEffects(s: ViewState, reply: Reply<SummaryJson>): seq<Effect>
  {
    [Loading(true), Send(SubmitRequest(s.model, s.text, s.file))] + ReplyEffects(reply) + [Loading(false)]
  }

  /** `!text.trim() && !file`. */
  predicate NothingToSubmit(text: string, file: Option<Upload>)
  {
    Strip(text, IsJsSpace) == [] && file.None?
  }

  /** The guard in words: nothing to submit exactly when there is no file and the text is all JavaScript whitespace. */
  lemma NothingToSubmitIff(text: string, file: Option<Upload>)
    ensures NothingToSubmit(text, file) <==> file.None? && Blank(text, IsJsSpace)
  {
    StripEmptyIffBlank(text, IsJsSpace);
  }

  class Summarizer {
    var text: string
    var model: string
    var file: Option<Upload>
    var summary: string
    var history: seq<HistoryItem>
    var loading: bool
    var error: string
    var effects: seq<Effect>

    function State(): ViewState
      reads this
    {
      ViewState(text, model, file, summary, history, loading, error)
    }

    /** The `useState` initial values. */
    constructor ()
      ensures State() == ViewState("", "bart", None, "", [], false, "")
      ensures effects == []
    {
      text, model, file, summary, history, loading, error := "", "bart", None, "", [], false, "";
      effects := [];
    }

    /** The synchronous start of `fetchHistory()`: its GET is issued; the reply is applied later. */
    method StartFetchHistory()
      modifies this
      ensures State() == old(State())
      ensures effects == old(effects) + [Send(HistoryRequest)]
    {
      effects := effects + [Send(HistoryRequest)];
    }

    /** The rest of `fetchHistory()`: any parsed list replaces the history; failures are only logged. */
    method ApplyHistory(reply: Reply<seq<HistoryItem>>)
      modifies this
      ensures State() == old(State()).(history := FetchedHistory(old(history), reply))
      ensures effects == old(effects)
    {
      if reply.Response? && reply.json.Some? {
        history := reply.json.value;
      }
    }

    /** `fetchHistory()` awaited to the end, as on mount. */
    method FetchHistory(reply: Reply<seq<HistoryItem>>)
      modifies this
      ensures State() == old(State()).(history := FetchedHistory(old(history), reply))
      ensures effects == old(effects) + [Send(HistoryRequest)]
    {
      StartFetchHistory();
      ApplyHistory(reply);
    }

    /**
     * `handleSubmit`. With blank text and no file it only alerts. Otherwise
     * it clears the summary and the error, shows the busy state and posts
     * the form. A summary is shown and starts one history fetch, the draft
     * staying as it was; any other reply sets an error message. The busy
     * state is cleared on every path.
     */
    method HandleSubmit(reply: Reply<SummaryJson>)
      modifies this
      ensures NothingToSubmit(old(text), old(file)) ==>
        State() == old(State()) && effects == old(effects) + [Alert(EmptyInputAlert)]
      ensures !NothingToSubmit(old(text), old(file)) ==>
        State() == Submitted(old(State()), reply) && effects == old(effects) + SubmitEffects(old(State()), reply)
    {
      if NothingToSubmit(text, file) {
        effects := effects + [Alert(EmptyInputAlert)];
      } else {
        Submit(reply);
      }
    }

    /** `handleSubmit` past its guard. */
    method Submit(reply: Reply<SummaryJson>)
      modifies this
      ensures State() == Submitted(old(State()), reply)
      ensures effects == old(effects) + SubmitEffects(old(State()), reply)
    {
      BeginSubmit();
      ReadSummaryReply(reply);
      EndSubmit();
    }

    /** `setLoading(true)`, `setError("")`, `setSummary("")`, then the form is built and posted. */
    method BeginSubmit()
      modifies this
      ensures State() == old(State()).(summary := "", error := "", loading := true)
      ensures effects == old(effects) + [Loading(true), Send(SubmitRequest(old(model), old(text), old(file)))]
    {
      loading := true;
      error := "";
      summary := "";
      effects := effects + [Loading(true)];
      var form := BuildForm(model, text, file);
      effects := effects + [Send(ClientRequest(Post, SummarizeRoute, FormBody(form)))];
    }

    /** The `finally`: the busy state ends whatever happened. */
    method EndSubmit()
      modifies this
      ensures State() == old(State()).(loading := false)
      ensures effects == old(effects) + [Loading(false)]
    {
      loading := false;
      effects := effects + [Loading(false)];
    }

    /** The `try`/`catch` of `handleSubmit` after the form is posted. */
    method ReadSummaryReply(reply: Reply<SummaryJson>)
      modifies this
      ensures State() == AfterReply(old(State()), reply)
      ensures effects == old(effects) + ReplyEffects(reply)
    {
      if reply.NetworkError? || reply.json.None? {
        // the rejected fetch or a failing res.json()
        error := UnreachableError;
      } else if Truthy(reply.json.value.summary) {
        summary := reply.json.value.summary.value;
        StartFetchHistory();
      } else {
        error := NoSummaryError;
      }
    }

    /**
     * `handleDelete(id)`: the DELETE, then a history fetch once it resolves
     * with any status. A rejection escapes the handler: no fetch, no
     * message.
     */
    method HandleDelete(id: nat, reply: Reply<()>)
      modifies this
      ensures State() == old(State())
      ensures reply.NetworkError? ==> effects == old(effects) + [Send(DeleteRequest(id))]
      ensures reply.Response? ==> effects == old(effects) + [Send(DeleteRequest(id)), Send(HistoryRequest)]
    {
      effects := effects + [Send(DeleteRequest(id))];
      if reply.NetworkError? {
        return;
      }
      StartFetchHistory();
    }

    /** `handleClearAll()`: no confirmation; otherwise as `handleDelete`. */
    method HandleClearAll(reply: Reply<()>)
      modifies this
      ensures State() == old(State())
      ensures reply.NetworkError? ==> effects == old(effects) + [Send(ClearRequest)]
      ensures reply.Response? ==> effects == old(effects) + [Send(ClearRequest), Send(HistoryRequest)]
    {
      effects := effects + [Send(ClearRequest)];
      if reply.NetworkError? {
        return;
      }
      StartFetchHistory();
    }

    /** `handleDownload(content, modelName)`: always saves, even an empty summary. */
    method HandleDownload(content: string, modelName: string)
      modifies this
      ensures State() == old(State())
      ensures effects == old(effects) + [Save(DownloadFile(content, modelName))]
    {
      effects := effects + [Save(DownloadFile(content, modelName))];
    }
  }
}
