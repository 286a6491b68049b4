/**
 * The Flask service of backend/app.py: model selection, the validation and
 * extension dispatch of POST /summarize, the output-length clamp, and the
 * summaries table behind /history and /clear. File readers, the
 * summarisation pipelines and `secure_filename` are supplied as function
 * values in `Services`.
 */
module Service {
  import opened Common
  import opened Text
  import opened Wire

  /** How Flask's URL map treats a request before any handler runs. */
  datatype Routing = Handled | NotFound | MethodNotAllowed

  /**
   * Three of the four decorated routes: POST /summarize, GET /history and
   * POST /clear (the `/` greeting is not modelled). A path with no rule is 404; a known path under another method is 405.
   */
  function Dispatch(verb: Verb, route: Route): (d: Routing)
    ensures route.DeleteRoute? ==> d == NotFound
    ensures route == SummarizeRoute ==> (d == Handled <==> verb == Post) && (d != Handled ==> d == MethodNotAllowed)
    ensures route == HistoryRoute ==> (d == Handled <==> verb == Get) && (d != Handled ==> d == MethodNotAllowed)
    ensures route == ClearRoute ==> (d == Handled <==> verb == Post) && (d != Handled ==> d == MethodNotAllowed)
  {
    match route
    case DeleteRoute(_) => NotFound
    case SummarizeRoute => if verb == Post then Handled else MethodNotAllowed
    case HistoryRoute => if verb == Get then Handled else MethodNotAllowed
    case ClearRoute => if verb == Post then Handled else MethodNotAllowed
  }

  /** The two pipelines loaded at start-up. */
  datatype Pipeline = BartLargeCnn | T5Small

  const DefaultModel := "bart"

  /** The `models` dictionary: model name to pipeline. */
  const Models: map<string, Pipeline> := map["bart" := BartLargeCnn, "t5" := T5Small]

  /** `models.get(name, models["bart"])`: a known name picks its pipeline, any other falls back to BART. */
  function GetModel(name: string): (p: Pipeline)
    ensures name in Models ==> p == Models[name]
    ensures name !in Models ==> p == BartLargeCnn
    ensures p == T5Small <==> name == "t5"
  {
    if name in Models then Models[name] else Models[DefaultModel]
  }

  const ShortestMaxLength := 50
  const LongestMaxLength := 130

  /** `min(130, max(50, words // 2))`, the `max_length` handed to the pipeline. */
  function MaxLength(words: nat): (n: nat)
    ensures ShortestMaxLength <= n <= LongestMaxLength
    ensures ShortestMaxLength <= words / 2 <= LongestMaxLength ==> n == words / 2
    ensures words / 2 < ShortestMaxLength ==> n == ShortestMaxLength
    ensures words / 2 > LongestMaxLength ==> n == LongestMaxLength
  {
    Min(LongestMaxLength, Max(ShortestMaxLength, words / 2))
  }

  /** More words never give a shorter `max_length`. */
  lemma MaxLengthMonotone(a: nat, b: nat)
    requires a <= b
    ensures MaxLength(a) <= MaxLength(b)
  {
    assert a / 2 <= b / 2;
  }

  /** The `text` member of a JSON body: a string, or some other JSON value (null, number, list, object). */
  datatype JsonValue = JsonString(s: string) | JsonOther

  /** A POST /summarize request as Flask presents it. */
  datatype Request =
    | JsonRequest(text: Option<JsonValue>, model: Option<string>)  // `request.is_json`, body an object
    | BadJsonRequest                                               // `request.is_json`, body not a JSON object
    | FormRequest(model: Option<string>, file: Option<Upload>)     // anything else: `request.form`, `request.files`

  datatype Reader = PdfReader | DocxReader | TxtReader

  /** What a reader gets out of a saved upload; a reader can raise (corrupt file, bad UTF-8). */
  datatype Extraction = Extracted(text: string) | ReadFailed

  /** What a pipeline call returns: `result[0]["summary_text"]`, or an exception. */
  datatype Inference = Generated(summaryText: string) | InferenceFailed

  /** The collaborators the handler calls but that are not modelled. */
  datatype Services = Services(
    sanitize: string -> string,               // werkzeug's secure_filename
    read: (Reader, seq<bv8>) -> Extraction,   // read_pdf, read_docx, read_txt
    infer: (Pipeline, string, nat) -> Inference)  // pipeline(text, max_length=...)

  /** Text accepted for summarising and the model name as the client asked for it. */
  datatype Submission = Submission(text: string, modelName: string)

  /** An error reply: its HTTP status and its `error` member. */
  datatype Rejection = Rejection(status: nat, error: string)

  const NoFileUploaded := Rejection(400, "No file uploaded")
  const EmptyFile := Rejection(400, "Empty file")
  const UnsupportedFileType := Rejection(400, "Unsupported file type")
  const NoTextFound := Rejection(400, "No text found in file")
  const ServerError := Rejection(500, "Server error")

  /** The reply of POST /summarize: `{summary, model}` with 200, or an error. */
  datatype SummarizeReply = Answered(summary: string, model: string) | Refused(rejection: Rejection)

  /** `.get("model", "bart")` on the JSON body or the form. */
  function RequestedModel(model: Option<string>): (name: string)
    ensures model.Some? ==> name == model.value
    ensures model.None? ==> name == DefaultModel
  {
    if model.Some? then model.value else DefaultModel
  }

  function Extension(reader: Reader): string
  {
    match reader
    case PdfReader => ".pdf"
    case DocxReader => ".docx"
    case TxtReader => ".txt"
  }

  /** The reader the `endswith` chain selects for a sanitised filename. */
  function ReaderFor(filename: string): (r: Option<Reader>)
    ensures r.Some? ==> EndsWith(filename, Extension(r.value))
    ensures r.None? <==> !EndsWith(filename, ".pdf") && !EndsWith(filename, ".docx") && !EndsWith(filename, ".txt")
  {
    if EndsWith(filename, ".pdf") then Some(PdfReader)
    else if EndsWith(filename, ".docx") then Some(DocxReader)
    else if EndsWith(filename, ".txt") then Some(TxtReader)
    else None
  }

  /** A reader is selected exactly when the name ends with its extension; at most one can match. */
  lemma ReaderForMatchesExtension(filename: string, reader: Reader)
    ensures ReaderFor(filename) == Some(reader) <==> EndsWith(filename, Extension(reader))
  {
    if EndsWith(filename, Extension(reader)) {
      // the three extensions end in different letters, so at most one matches
      assert filename[|filename| - 1] == Extension(reader)[|Extension(reader)| - 1];
    }
  }

  /** No file name is served by any reader other than the selected one. */
  lemma UnsupportedIffNoExtension(filename: string)
    ensures ReaderFor(filename) == None <==>
      !EndsWith(filename, ".pdf") && !EndsWith(filename, ".docx") && !EndsWith(filename, ".txt")
  {
  }

  /** `if not text.strip()`: reject blank text, otherwise pass it on with the model name. */
  function CheckText(text: string, modelName: string): (r: Result<Submission, Rejection>)
    ensures r.Success? <==> !Blank(text, IsPySpace)
    ensures r.Success? ==> r.value == Submission(text, modelName) && |Split(text, IsPySpace)| >= 1
    ensures r.Failure? ==> r.error == NoTextFound
  {
    StripEmptyIffBlank(text, IsPySpace);
    SplitEmptyIffBlank(text, IsPySpace);
    if Strip(text, IsPySpace) == [] then Failure(NoTextFound) else Success(Submission(text, modelName))
  }

  /**
   * The file-upload branch of `summarize`: the missing and empty file
   * checks, the save (which raises when the sanitised name is empty, the
   * path then being the upload folder), the extension dispatch on the
   * sanitised name, and the reader.
   */
  function UploadText(file: Option<Upload>, env: Services): (r: Result<string, Rejection>)
    ensures file.None? ==> r == Failure(NoFileUploaded)
    ensures file.Some? && file.value.filename == "" ==> r == Failure(EmptyFile)
    ensures file.Some? && file.value.filename != "" && env.sanitize(file.value.filename) == "" ==> r == Failure(ServerError)
  {
    if file.None? then Failure(NoFileUploaded)
    else if file.value.filename == "" then Failure(EmptyFile)
    else if env.sanitize(file.value.filename) == "" then Failure(ServerError)
    else
      match ReaderFor(env.sanitize(file.value.filename))
      case None => Failure(UnsupportedFileType)
      case Some(reader) =>
        match env.read(reader, file.value.bytes)
        case ReadFailed => Failure(ServerError)
        case Extracted(t) => Success(t)
  }

  /**
   * The decision part of `summarize` up to the pipeline call: the JSON or
   * form branch, the missing and empty file checks, the extension dispatch,
   * the reader, and the whitespace-only check.
   */
  function Validate(req: Request, env: Services): (r: Result<Submission, Rejection>)
    ensures r.Success? ==> !Blank(r.value.text, IsPySpace) && |Split(r.value.text, IsPySpace)| >= 1
    ensures r.Success? ==> !req.BadJsonRequest? && r.value.modelName == RequestedModel(req.model)
    ensures r.Failure? ==> r.error in {NoFileUploaded, EmptyFile, UnsupportedFileType, NoTextFound, ServerError}
    ensures req.BadJsonRequest? ==> r == Failure(ServerError)
    ensures req.FormRequest? && req.file.None? ==> r == Failure(NoFileUploaded)
    ensures req.FormRequest? && req.file.Some? && req.file.value.filename == "" ==> r == Failure(EmptyFile)
    ensures req.FormRequest? && UploadText(req.file, env).Failure? ==> r == Failure(UploadText(req.file, env).error)
    ensures req.FormRequest? && UploadText(req.file, env).Success? ==>
      r == if Blank(UploadText(req.file, env).value, IsPySpace) then Failure(NoTextFound)
           else Success(Submission(UploadText(req.file, env).value, RequestedModel(req.model)))
    ensures req.JsonRequest? && req.text.Some? && req.text.value.JsonOther? ==> r == Failure(ServerError)
    ensures req.JsonRequest? && req.text.Some? && req.text.value.JsonString? ==>
      r == if Blank(req.text.value.s, IsPySpace) then Failure(NoTextFound)
           else Success(Submission(req.text.value.s, RequestedModel(req.model)))
  {
    match req
    case BadJsonRequest => Failure(ServerError)
    case JsonRequest(text, model) =>
      (match text
       case None => CheckText("", RequestedModel(model))
       case Some(JsonOther) => Failure(ServerError)
       case Some(JsonString(t)) => CheckText(t, RequestedModel(model)))
    case FormRequest(model, file) =>
      match UploadText(file, env)
      case Failure(e) => Failure(e)
      case Success(t) => CheckText(t, RequestedModel(model))
  }

  /** A form request without a usable file is refused before any reader or collaborator is used. */
  lemma FormRefusalIgnoresServices(req: Request, env: Services, other: Services)
    requires req.FormRequest? && (req.file.None? || req.file.value.filename == "")
    ensures Validate(req, env) == Validate(req, other)
    ensures Validate(req, env).Failure? && Validate(req, env).error.status == 400
  {
  }

  /**
   * A named upload is refused as unsupported exactly when its sanitised name
   * is non-empty and has none of the three extensions.
   */
  lemma UnsupportedFileTypeIff(model: Option<string>, upload: Upload, env: Services)
    requires upload.filename != ""
    ensures Validate(FormRequest(model, Some(upload)), env) == Failure(UnsupportedFileType)
      <==> env.sanitize(upload.filename) != "" && ReaderFor(env.sanitize(upload.filename)) == None
  {
  }

  /** A named upload yields exactly what the reader for its sanitised name's extension makes of its bytes. */
  lemma UploadReadByMatchingReader(upload: Upload, env: Services, reader: Reader)
    requires upload.filename != ""
    requires EndsWith(env.sanitize(upload.filename), Extension(reader))
    ensures UploadText(Some(upload), env) ==
      match env.read(reader, upload.bytes)
      case ReadFailed => Failure(ServerError)
      case Extracted(t) => Success(t)
  {
    ReaderForMatchesExtension(env.sanitize(upload.filename), reader);
  }

  /** A JSON body is accepted exactly when its `text` is a string with a non-whitespace character; a missing `text` counts as "". */
  lemma JsonTextAcceptedIff(text: Option<JsonValue>, model: Option<string>, env: Services)
    ensures Validate(JsonRequest(text, model), env).Success? <==>
      text.Some? && text.value.JsonString? && !Blank(text.value.s, IsPySpace)
    ensures Validate(JsonRequest(text, model), env).Success? ==>
      Validate(JsonRequest(text, model), env) == Success(Submission(text.value.s, RequestedModel(model)))
    ensures text.None? ==> Validate(JsonRequest(text, model), env) == Failure(NoTextFound)
    ensures text == Some(JsonOther) ==> Validate(JsonRequest(text, model), env) == Failure(ServerError)
  {
    if text.None? {
      StripEmptyIffBlank("", IsPySpace);
    } else if text.value.JsonString? {
      StripEmptyIffBlank(text.value.s, IsPySpace);
    }
  }

  /** The file-upload branch of `summarize`, step by step with its early returns. */
  method ReadUpload(file: Option<Upload>, env: Services) returns (r: Result<string, Rejection>)
    ensures r == UploadText(file, env)
  {
    if file.None? {
      return Failure(NoFileUploaded);
    }
    var upload := file.value;
    if upload.filename == "" {
      return Failure(EmptyFile);
    }
    var filename := env.sanitize(upload.filename);
    if filename == "" {
      // `file.save` onto the upload folder itself raises
      return Failure(ServerError);
    }
    // the `endswith` chain
    var reader := ReaderFor(filename);
    if reader.None? {
      return Failure(UnsupportedFileType);
    }
    var extraction := env.read(reader.value, upload.bytes);
    if extraction.ReadFailed? {
      // the reader raised
      return Failure(ServerError);
    }
    r := Success(extraction.text);
  }

  /**
   * The first half of `summarize`, step by step: `text` and `model_name`
   * start as "" and "bart", the branch for the body's kind fills them in
   * or returns early, and the whitespace check comes last.
   */
  method ReadSubmission(req: Request, env: Services) returns (r: Result<Submission, Rejection>)
    ensures r == Validate(req, env)
  {
    var text := "";
    var modelName := DefaultModel;
    match req {
      case BadJsonRequest =>
        return Failure(ServerError);
      case JsonRequest(jsonText, model) =>
        match jsonText {
          case None =>
            text := "";
          case Some(JsonOther) =>
            // `text.strip()` raises on a non-string
            return Failure(ServerError);
          case Some(JsonString(t)) =>
            text := t;
        }
        modelName := RequestedModel(model);
        assert Validate(req, env) == CheckText(text, modelName);
      case FormRequest(model, file) =>
        modelName := RequestedModel(model);
        var upload := ReadUpload(file, env);
        if upload.Failure? {
          return Failure(upload.error);
        }
        text := upload.value;
        assert Validate(req, env) == CheckText(text, modelName);
    }
    if Strip(text, IsPySpace) == [] {
      return Failure(NoTextFound);
    }
    r := Success(Submission(text, modelName));
  }

  /** A row of the `summaries` table. */
  datatype Row = Row(id: nat, text: string, summary: string, model: string)

  /** The dictionary `/history` builds for a row. */
  function AsItem(row: Row): (item: HistoryItem)
    ensures item.id == row.id && item.text == row.text && item.summary == row.summary && item.model == row.model
  {
    HistoryItem(row.id, row.text, row.summary, row.model)
  }

  /**
   * The `summaries` table. Rows are kept in insertion order; `nextId` plays
   * AUTOINCREMENT: it only grows, so ids are never reused, not even after
   * the table is cleared.
   */
  class SummaryTable {
    var rows: seq<Row>
    var nextId: nat

    ghost predicate Valid()
      reads this
    {
      (forall i :: 0 <= i < |rows| ==> rows[i].id < nextId) &&
      (forall i, j :: 0 <= i < j < |rows| ==> rows[i].id < rows[j].id)
    }

    /** `init_db` on a fresh database. */
    constructor ()
      ensures Valid() && rows == [] && nextId == 1
    {
      rows := [];
      nextId := 1;
    }

    /** `INSERT INTO summaries (text, summary, model)`: one new row with the next id. */
    method Insert(text: string, summary: string, model: string) returns (id: nat)
      requires Valid()
      modifies this
      ensures Valid()
      ensures id == old(nextId) && nextId == old(nextId) + 1
      ensures rows == old(rows) + [Row(id, text, summary, model)]
    {
      id := nextId;
      rows := rows + [Row(id, text, summary, model)];
      nextId := nextId + 1;
    }

    /**
     * The second half of `summarize` for accepted text: the word count, the
     * clamp, the pipeline call, and on success one new row and the reply.
     */
    method Record(input: Submission, env: Services) returns (reply: SummarizeReply)
      requires Valid()
      modifies this
      ensures Valid()
      ensures match env.infer(GetModel(input.modelName), input.text, MaxLength(|Split(input.text, IsPySpace)|))
        case InferenceFailed => reply == Refused(ServerError) && rows == old(rows) && nextId == old(nextId)
        case Generated(summary) =>
          reply == Answered(summary, input.modelName) && nextId == old(nextId) + 1 &&
          rows == old(rows) + [Row(old(nextId), input.text, summary, input.modelName)]
    {
      var words := |Split(input.text, IsPySpace)|;
      var maxLen := MaxLength(words);
      var summarizer := GetModel(input.modelName);
      var result := env.infer(summarizer, input.text, maxLen);
      if result.InferenceFailed? {
        return Refused(ServerError);
      }
      var summary := result.summaryText;
      var _ := Insert(input.text, summary, input.modelName);
      reply := Answered(summary, input.modelName);
    }

    /**
     * POST /summarize. Every refusal leaves the table alone; a generated
     * summary adds exactly one row holding the text, the summary and the
     * model name as requested (not the pipeline it fell back to), and the
     * reply echoes that name.
     */
    method Summarize(req: Request, env: Services) returns (reply: SummarizeReply)
      requires Valid()
      modifies this
      ensures Valid()
      ensures match Validate(req, env)
        case Failure(e) => reply == Refused(e) && rows == old(rows) && nextId == old(nextId)
        case Success(s) =>
          match env.infer(GetModel(s.modelName), s.text, MaxLength(|Split(s.text, IsPySpace)|))
          case InferenceFailed => reply == Refused(ServerError) && rows == old(rows) && nextId == old(nextId)
          case Generated(summary) =>
            reply == Answered(summary, s.modelName) && nextId == old(nextId) + 1 &&
            rows == old(rows) + [Row(old(nextId), s.text, summary, s.modelName)]
    {
      var input := ReadSubmission(req, env);
      if input.Failure? {
        return Refused(input.error);
      }
      reply := Record(input.value, env);
    }

    /** GET /history: every row exactly once, newest (highest id) first, as `{id, text, summary, model}`. */
    method History() returns (items: seq<HistoryItem>)
      requires Valid()
      ensures |items| == |rows|
      ensures forall k :: 0 <= k < |items| ==> items[k] == AsItem(rows[|rows| - 1 - k])
      ensures forall k, l :: 0 <= k < l < |items| ==> items[k].id > items[l].id
    {
      items := [];
      var i := |rows|;
      while i > 0
        invariant 0 <= i <= |rows|
        invariant |items| == |rows| - i
        invariant forall k :: 0 <= k < |items| ==> items[k] == AsItem(rows[|rows| - 1 - k])
      {
        i := i - 1;
        items := items + [AsItem(rows[i])];
      }
    }

    /** POST /clear: `DELETE FROM summaries`; ids keep counting from where they were. */
    method Clear() returns (msg: string)
      requires Valid()
      modifies this
      ensures Valid()
      ensures rows == [] && nextId == old(nextId)
      ensures msg == "Cleared"
    {
      rows := [];
      msg := "Cleared";
    }
  }
}
