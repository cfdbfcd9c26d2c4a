/**
 * The Flask backend's request validation (app.py): the speech-generation and
 * content-extraction placeholders and the 404 handler, as maps from the
 * request's data to a status code and JSON body. Request parsing is a
 * parameter: what `request.get_json()` yields or that it raises, the
 * Content-Type header, the uploaded files.
 */
module Backend {
  import opened Wrappers
  import opened Text

  /** A JSON value as Python sees it after parsing. */
  datatype Json =
    | JNull
    | JBool(b: bool)
    | JNum(n: real)
    | JStr(s: string)
    | JArr(items: seq<Json>)
    | JObj(fields: map<string, Json>)

  /** Python truthiness of the parsed value. */
  predicate Truthy(v: Json) {
    match v
    case JNull => false
    case JBool(b) => b
    case JNum(n) => n != 0.0
    case JStr(s) => s != ""
    case JArr(items) => |items| > 0
    case JObj(fields) => |fields| > 0
  }

  /** `request.get_json()`: a parsed body, or an exception (a body that is not
      JSON, or not sent as JSON). A missing body reads as `JNull`. */
  datatype JsonRead = Parsed(value: Json) | Raises

  /** An HTTP answer: status code and JSON body. */
  datatype Reply = Reply(status: int, body: Json)

  const DefaultVoice := "microsoft/speecht5_tts"

  function ErrorReply(status: int, message: string): Reply {
    Reply(status, JObj(map["error" := JStr(message)]))
  }

  /** `dict.get(key, default)`. */
  function Get(fields: map<string, Json>, key: string, default: Json): Json {
    if key in fields then fields[key] else default
  }

  /** What the speech endpoint decided: a rejection, or an accepted job with
      the voice and speed it resolved. */
  datatype SpeechOutcome =
    | SpeechRejected(reply: Reply)
    | SpeechStarted(voice: Json, speed: Json, reply: Reply)

  /** `generate_speech_placeholder`, with `sessionId` the fresh UUID. A body
      that is truthy but not an object fails at `data.get` and is answered 500. */
  function GenerateSpeech(read: JsonRead, sessionId: string): SpeechOutcome {
    match read
    case Raises => SpeechRejected(ErrorReply(500, "Internal server error"))
    case Parsed(data) =>
      if !Truthy(data) then SpeechRejected(ErrorReply(400, "No data provided"))
      else if !data.JObj? then SpeechRejected(ErrorReply(500, "Internal server error"))
      else
        var content := Get(data.fields, "content", JNull);
        var voice := Get(data.fields, "voice", JStr(DefaultVoice));
        var speed := Get(data.fields, "speed", JNum(1.0));
        if !Truthy(content) then SpeechRejected(ErrorReply(400, "No content provided"))
        else SpeechStarted(voice, speed, JobReply(sessionId))
  }

  /** The answer for an accepted job. */
  function JobReply(sessionId: string): Reply {
    Reply(200, JObj(map[
      "success" := JBool(true),
      "session_id" := JStr(sessionId),
      "status" := JStr("processing"),
      "estimated_duration" := JNum(30.0),
      "message" := JStr("Speech generation started. Use the session_id to check status."),
      "polling_url" := JStr(PollingUrl(sessionId))]))
  }

  function PollingUrl(sessionId: string): string {
    "/api/speech/status/" + sessionId
  }

  /** A job starts, with status 200, exactly for an object body with truthy content. */
  lemma GenerateSpeechStatus(read: JsonRead, sessionId: string)
    ensures GenerateSpeech(read, sessionId).SpeechStarted? <==>
      read.Parsed? && read.value.JObj? && Truthy(read.value)
      && "content" in read.value.fields && Truthy(read.value.fields["content"])
    ensures GenerateSpeech(read, sessionId).SpeechStarted? <==> GenerateSpeech(read, sessionId).reply.status == 200
  {
  }

  /** The rejections: 400 for a falsy body or falsy content, 500 for a body
      that cannot be read or is not an object. */
  lemma GenerateSpeechRejections(read: JsonRead, sessionId: string)
    ensures GenerateSpeech(read, sessionId).reply.status == 400 <==>
      read.Parsed? && (!Truthy(read.value)
        || (read.value.JObj? && !Truthy(Get(read.value.fields, "content", JNull))))
    ensures GenerateSpeech(read, sessionId).reply.status == 500 <==>
      read.Raises? || (Truthy(read.value) && !read.value.JObj?)
    ensures GenerateSpeech(read, sessionId).reply.status in {200, 400, 500}
  {
  }

  /** An accepted job uses the request's voice and speed when given (even a
      null one), else the default voice and speed 1.0. */
  lemma GenerateSpeechDefaults(read: JsonRead, sessionId: string)
    requires GenerateSpeech(read, sessionId).SpeechStarted?
    ensures var o := GenerateSpeech(read, sessionId);
      var fields := read.value.fields;
      && o.voice == (if "voice" in fields then fields["voice"] else JStr(DefaultVoice))
      && o.speed == (if "speed" in fields then fields["speed"] else JNum(1.0))
      && o.reply == JobReply(sessionId)
  {
  }

  /** The job's answer is a 200 naming the session and the URL to poll,
      which ends with the session id. */
  lemma JobReplyNamesSession(sessionId: string)
    ensures JobReply(sessionId).status == 200
    ensures JobReply(sessionId).body.fields["session_id"] == JStr(sessionId)
    ensures JobReply(sessionId).body.fields["polling_url"] == JStr(PollingUrl(sessionId))
    ensures EndsWith(PollingUrl(sessionId), sessionId)
  {
    var u := PollingUrl(sessionId);
    assert u[|u| - |sessionId|..] == sessionId;
  }

  /** The parts of a request the extraction endpoint looks at: its
      Content-Type header, if any; the uploaded files by field name, each
      with its client-side file name; and the JSON body. */
  datatype ExtractRequest = ExtractRequest(contentType: Option<string>, files: map<string, string>, json: JsonRead)

  const MockPdfReply := Reply(200, JObj(map["success" := JBool(true), "page_count" := JNum(5.0), "word_count" := JNum(156.0)]))

  function MockUrlReply(url: Json): Reply {
    Reply(200, JObj(map["success" := JBool(true), "url" := url, "word_count" := JNum(89.0)]))
  }

  /** `extract_content_placeholder`. Without a Content-Type header the
      membership test fails and the request is answered 500. */
  function ExtractContent(req: ExtractRequest): Reply {
    match req.contentType
    case None => ErrorReply(500, "Internal server error")
    case Some(ct) =>
      if Contains(ct, "multipart/form-data") then
        if "file" !in req.files then ErrorReply(400, "No file provided")
        else if req.files["file"] == "" then ErrorReply(400, "No file selected")
        else if !EndsWith(ToLower(req.files["file"]), ".pdf") then ErrorReply(400, "Only PDF files are supported")
        else MockPdfReply
      else
        match req.json
        case Raises => ErrorReply(500, "Internal server error")
        case Parsed(data) =>
          if !Truthy(data) then ErrorReply(400, "No data provided")
          else if !data.JObj? then ErrorReply(500, "Internal server error")
          else
            var url := Get(data.fields, "url", JNull);
            if Truthy(url) then MockUrlReply(url) else ErrorReply(400, "No URL provided")
  }

  /** An upload is accepted exactly when it has a file whose name ends in
      '.pdf' in any letter case. */
  lemma ExtractUpload(req: ExtractRequest)
    requires req.contentType.Some? && Contains(req.contentType.value, "multipart/form-data")
    ensures ExtractContent(req).status == 200 <==>
      "file" in req.files && EndsWith(ToLower(req.files["file"]), ".pdf")
    ensures ExtractContent(req).status != 200 ==> ExtractContent(req).status == 400
  {
  }

  lemma UpperCasePdfAccepted()
    ensures ExtractContent(ExtractRequest(Some("multipart/form-data; boundary=x"), map["file" := "A.PDF"], Raises)).status == 200
  {
    assert StartsWith("multipart/form-data; boundary=x", "multipart/form-data");
    assert ToLower("A.PDF") == "a.pdf";
  }

  /** A JSON request is accepted exactly when its body is an object with a
      truthy url. */
  lemma ExtractJson(req: ExtractRequest)
    requires req.contentType.Some? && !Contains(req.contentType.value, "multipart/form-data")
    ensures ExtractContent(req).status == 200 <==>
      req.json.Parsed? && req.json.value.JObj? && "url" in req.json.value.fields
      && Truthy(req.json.value.fields["url"])
    ensures ExtractContent(req).status == 400 <==>
      req.json.Parsed? && (!Truthy(req.json.value)
        || (req.json.value.JObj? && !Truthy(Get(req.json.value.fields, "url", JNull))))
  {
  }

  lemma ExtractWithoutContentType(req: ExtractRequest)
    requires req.contentType == None
    ensures ExtractContent(req) == ErrorReply(500, "Internal server error")
  {
  }

  /** The 404 handler: API paths get a JSON 404; any other path is served the
      main page (`index`, whose text is the page file or the setup notice). */
  function NotFound(path: string, indexPage: string): Reply {
    if StartsWith(path, "/api/") then ErrorReply(404, "API endpoint not found")
    else Reply(200, JStr(indexPage))
  }

  lemma NotFoundRouting(path: string, indexPage: string)
    ensures NotFound(path, indexPage).status == 404 <==> StartsWith(path, "/api/")
    ensures !StartsWith(path, "/api/") ==> NotFound(path, indexPage).body == JStr(indexPage)
  {
  }
}
