/**
 * The `App` component of frontend/src/App.js: the draft (text, file,
 * model), the current summary, the busy flag and the history list, with
 * the handlers that change them around awaited requests. Each handler
 * takes the way its request settles as a parameter and records in
 * `effects` the dialogs it raises, the requests it sends and the
 * downloads it starts.
 */
module AppView {
  import opened Common
  import opened Text
  import opened Wire

  const EmptyInputAlert := "Enter text or upload file!"
  const ServerErrorAlert := "Server Error! Start backend first."
  const NoSummaryAlert := "No summary received!"
  const DeleteFailedAlert := "Delete failed!"
  const ClearFailedAlert := "Clear failed!"
  const ClearQuestion := "Delete all history?"
  const NothingToDownloadAlert := "No summary to download!"
  const DownloadName := "summary.txt"

  /** The component's state, less the dark-mode toggle. */
  datatype ViewState = ViewState(
    text: string, file: Option<Upload>, model: string,
    summary: string, loading: bool, history: seq<HistoryItem>)

  /**
   * The POST /summarize request for a draft: multipart with `file` and
   * `model` when a file is chosen, otherwise JSON with `text` and `model`.
   */
  function SummarizeRequest(text: string, file: Option<Upload>, model: string): (r: ClientRequest)
    ensures r.verb == Post && r.route == SummarizeRoute
    ensures CarriesFile(r.body) <==> file.Some?
    ensures CarriesText(r.body) <==> file.None?
    ensures file.Some? ==> r.body == FormBody([FileField("file", file.value), TextField("model", model)])
    ensures file.None? ==> r.body == JsonBody(text, model)
  {
    if file.Some? then
      var fields := [FileField("file", file.value), TextField("model", model)];
      assert fields[0].FileField? && fields[0].name == "file";
      ClientRequest(Post, SummarizeRoute, FormBody(fields))
    else
      ClientRequest(Post, SummarizeRoute, JsonBody(text, model))
  }

  /**
   * How `handleSummarize` reads a reply: a rejection, a non-ok status or a
   * body that is not JSON all land in the `catch`; otherwise a truthy
   * `data.summary` is the summary.
   */
  function Outcome(reply: Reply<SummaryJson>): (o: SubmitOutcome)
    ensures reply.NetworkError? || !reply.ok || reply.json.None? ==> o == ServerFailed
    ensures o.Summarized? <==> reply.Response? && reply.ok && reply.json.Some? && Truthy(reply.json.value.summary)
    ensures o == NoSummary <==> reply.Response? && reply.ok && reply.json.Some? && !Truthy(reply.json.value.summary)
    ensures o.Summarized? ==> o.summary == reply.json.value.summary.value && o.summary != ""
  {
    match reply
    case NetworkError => ServerFailed
    case Response(ok, json) =>
      if !ok || json.None? then ServerFailed
      else if Truthy(json.value.summary) then Summarized(json.value.summary.value)
      else NoSummary
  }

  /**
   * The state once `handleSummarize` has read its reply: a summary replaces
   * the shown one and empties the draft; any other reply changes nothing.
   * The model and the history are never touched.
   */
  function AfterReply(s: ViewState, reply: Reply<SummaryJson>): (t: ViewState)
    ensures t.model == s.model && t.history == s.history && t.loading == s.loading
    ensures Outcome(reply).Summarized? ==> t.summary == Outcome(reply).summary && t.text == "" && t.file == None
    ensures !Outcome(reply).Summarized? ==> t == s
  {
    if Outcome(reply).Summarized? then s.(summary := Outcome(reply).summary, text := "", file := None) else s
  }

  /** What reading the reply adds: one history reload after a summary, otherwise one alert. */
  function ReplyEffects(reply: Reply<SummaryJson>): (e: seq<Effect>)
    ensures Outcome(reply).Summarized? ==> e == [Send(HistoryRequest)]
    ensures Outcome(reply) == NoSummary ==> e == [Alert(NoSummaryAlert)]
    ensures Outcome(reply) == ServerFailed ==> e == [Alert(ServerErrorAlert)]
  {
    match Outcome(reply)
    case Summarized(_) => [Send(HistoryRequest)]
    case NoSummary => [Alert(NoSummaryAlert)]
    case ServerFailed => [Alert(ServerErrorAlert)]
  }

  /** `loadHistory` replaces the list only with the body of an ok reply. */
  function LoadedHistory(previous: seq<HistoryItem>, reply: Reply<seq<HistoryItem>>): (h: seq<HistoryItem>)
    ensures reply.Response? && reply.ok && reply.json.Some? ==> h == reply.json.value
    ensures reply.NetworkError? || !reply.ok || reply.json.None? ==> h == previous
  {
    if reply.Response? && reply.ok && reply.json.Some? then reply.json.value else previous
  }

  /** `!text.trim() && !file`: the draft has no file and its text is all whitespace. */
  predicate NothingToSubmit(text: string, file: Option<Upload>)
  {
    Strip(text, IsJsSpace) == [] && file.None?
  }

  /** The guard in words: nothing to submit exactly when there is no file and no character other than whitespace. */
  lemma NothingToSubmitIff(text: string, file: Option<Upload>)
    ensures NothingToSubmit(text, file) <==> file.None? && Blank(text, IsJsSpace)
  {
    StripEmptyIffBlank(text, IsJsSpace);
  }

  class App {
    var text: string
    var file: Option<Upload>
    var model: string
    var summary: string
    var loading: bool
    var history: seq<HistoryItem>
    var effects: seq<Effect>

    function State(): ViewState
      reads this
    {
      ViewState(text, file, model, summary, loading, history)
    }

    /** The `useState` initial values. */
    constructor ()
      ensures State() == ViewState("", None, "bart", "", false, [])
      ensures effects == []
    {
      text, file, model, summary, loading, history := "", None, "bart", "", false, [];
      effects := [];
    }

    /** The synchronous start of `loadHistory()`: its GET is issued; the reply is applied later. */
    method StartLoadHistory()
      modifies this
      ensures State() == old(State())
      ensures effects == old(effects) + [Send(HistoryRequest)]
    {
      effects := effects + [Send(HistoryRequest)];
    }

    /** The rest of `loadHistory()` once its reply is in; failures are only logged to the console. */
    method ApplyHistory(reply: Reply<seq<HistoryItem>>)
      modifies this
      ensures State() == old(State()).(history := LoadedHistory(old(history), reply))
      ensures effects == old(effects)
    {
      if reply.Response? && reply.ok && reply.json.Some? {
        history := reply.json.value;
      }
    }

    /** `loadHistory()` awaited to the end, as on mount. */
    method LoadHistory(reply: Reply<seq<HistoryItem>>)
      modifies this
      ensures State() == old(State()).(history := LoadedHistory(old(history), reply))
      ensures effects == old(effects) + [Send(HistoryRequest)]
    {
      StartLoadHistory();
      ApplyHistory(reply);
    }

    /**
     * `handleSummarize`. With blank text and no file it only alerts.
     * Otherwise it shows the busy state, sends one request, and on a
     * summary replaces it, empties the draft (keeping the model) and starts
     * one history reload; on every other outcome it alerts and keeps the
     * draft and the old summary. The busy state is cleared on every path.
     */
    method HandleSummarize(reply: Reply<SummaryJson>)
      modifies this
      ensures NothingToSubmit(old(text), old(file)) ==>
        State() == old(State()) && effects == old(effects) + [Alert(EmptyInputAlert)]
      ensures !NothingToSubmit(old(text), old(file)) ==>
        State() == AfterReply(old(State()), reply).(loading := false) &&
        effects == old(effects) + [Loading(true), Send(SummarizeRequest(old(text), old(file), old(model)))]
                                + ReplyEffects(reply) + [Loading(false)]
    {
      if NothingToSubmit(text, file) {
        effects := effects + [Alert(EmptyInputAlert)];
        return;
      }
      Submit(reply);
    }

    /** `handleSummarize` past its guard: busy, send, read the reply, not busy. */
    method Submit(reply: Reply<SummaryJson>)
      modifies this
      ensures State() == AfterReply(old(State()), reply).(loading := false)
      ensures effects == old(effects) + [Loading(true), Send(SummarizeRequest(old(text), old(file), old(model)))]
                                      + ReplyEffects(reply) + [Loading(false)]
    {
      loading := true;
      effects := effects + [Loading(true)];
      var request := SummarizeRequest(text, file, model);
      effects := effects + [Send(request)];
      ReadSummaryReply(reply);
      loading := false;
      effects := effects + [Loading(false)];
    }

    /** The `try`/`catch` of `handleSummarize` after the request is sent. */
    method ReadSummaryReply(reply: Reply<SummaryJson>)
      modifies this
      ensures State() == AfterReply(old(State()), reply)
      ensures effects == old(effects) + ReplyEffects(reply)
    {
      if reply.NetworkError? || !reply.ok || reply.json.None? {
        // the rejection, `throw new Error()` on !res.ok, or a failing res.json()
        effects := effects + [Alert(ServerErrorAlert)];
      } else if Truthy(reply.json.value.summary) {
        summary := reply.json.value.summary.value;
        text := "";
        file := None;
        StartLoadHistory();
      } else {
        effects := effects + [Alert(NoSummaryAlert)];
      }
    }

    /**
     * `deleteItem(id)`: once the DELETE settles with any status, a history
     * reload starts; only a rejected request alerts. Nothing is removed
     * locally.
     */
    method DeleteItem(id: nat, reply: Reply<()>)
      modifies this
      ensures State() == old(State())
      ensures reply.NetworkError? ==> effects == old(effects) + [Send(DeleteRequest(id)), Alert(DeleteFailedAlert)]
      ensures reply.Response? ==> effects == old(effects) + [Send(DeleteRequest(id)), Send(HistoryRequest)]
    {
      effects := effects + [Send(DeleteRequest(id))];
      if reply.NetworkError? {
        effects := effects + [Alert(DeleteFailedAlert)];
      } else {
        StartLoadHistory();
      }
    }

    /**
     * `clearAll()`: asks first; a declined confirmation sends nothing. An
     * accepted one sends the DELETE, then reloads on any status and alerts
     * only on a rejection.
     */
    method ClearAll(confirmed: bool, reply: Reply<()>)
      modifies this
      ensures State() == old(State())
      ensures !confirmed ==> effects == old(effects) + [Confirm(ClearQuestion)]
      ensures confirmed && reply.NetworkError? ==>
        effects == old(effects) + [Confirm(ClearQuestion), Send(ClearRequest), Alert(ClearFailedAlert)]
      ensures confirmed && reply.Response? ==>
        effects == old(effects) + [Confirm(ClearQuestion), Send(ClearRequest), Send(HistoryRequest)]
    {
      effects := effects + [Confirm(ClearQuestion)];
      if !confirmed {
        return;
      }
      effects := effects + [Send(ClearRequest)];
      if reply.NetworkError? {
        effects := effects + [Alert(ClearFailedAlert)];
      } else {
        StartLoadHistory();
      }
    }

    /** `downloadSummary(content)`: an empty string alerts; anything else is saved verbatim as summary.txt. */
    method DownloadSummary(content: string)
      modifies this
      ensures State() == old(State())
      ensures content == "" ==> effects == old(effects) + [Alert(NothingToDownloadAlert)]
      ensures content != "" ==> effects == old(effects) + [Save(TextFile(DownloadName, content))]
    {
      if content == "" {
        effects := effects + [Alert(NothingToDownloadAlert)];
        return;
      }
      effects := effects + [Save(TextFile(DownloadName, content))];
    }
  }
}
