/**
 * The start button and the content preview of the single-page application
 * (src/App.tsx): stream mode opens the reader, generate mode asks the
 * Hugging Face service for one audio file when it is configured and
 * otherwise shows a notice; the preview shows a truncated excerpt, a word
 * count and a reading time.
 */
module App {
  import opened Wrappers
  import opened Text
  import opened Store
  import opened HuggingFace

  /** What a press of the start button leads to besides the store update. */
  datatype StartOutcome =
    | Ignored
    | ReaderOpened
    | Downloaded(audio: string)
    | FallbackNotice(setup: string, askForKey: bool)
    | Failed(message: string)

  /** Remote generation is attempted only with the Hugging Face engine, a
      stored key and a selected voice. */
  predicate CanGenerate(s: AppState) {
    s.ttsEngine == Some(HuggingFace) && s.huggingFaceApiKey != "" && s.selectedVoice.Some?
  }

  /** The service built from the stored key, with the default model. */
  function ServiceOf(s: AppState): Service {
    NewService(TtsConfig(Some(s.huggingFaceApiKey), None))
  }

  /** The request options: the whole content, and the selected voice's `id`,
      which a browser voice does not have, so no voice is sent. */
  function OptionsOf(s: AppState): AudioOptions {
    AudioOptions(s.extractedContent, None, None, None)
  }

  /** The message shown for a thrown value: an `Error`'s message, else a fixed text. */
  function ErrorMessage(thrown: Thrown): string {
    match thrown
    case ErrorValue(m) => m
    case NonErrorValue => "Audio generation failed"
  }

  /** The "Current setup" line of the notice. */
  function SetupLine(engine: Option<TtsEngine>): string {
    if engine == Some(WebSpeech) then "Browser TTS (streaming only)" else "Hugging Face TTS"
  }

  /** `handleStartReading` on the store's state for one press, with the network
      answering the request and nothing else happening while it is pending. */
  function StartReading(s: AppState, network: TtsRequest -> FetchOutcome): (AppState, StartOutcome) {
    var (t, step) := BeginStartReading(s);
    match step
    case Finished(o) => (t, o)
    case Awaiting(service, options) => AfterGeneration(t, GenerateAudio(service, options, network))
  }

  /** The download on success, the stored error message on failure. */
  function AfterGeneration(s: AppState, result: Result<AudioResult, Thrown>): (AppState, StartOutcome) {
    match result
    case Success(audio) => (s, Downloaded(audio.audio))
    case Failure(thrown) => (s.(error := Some(ErrorMessage(thrown))), Failed(ErrorMessage(thrown)))
  }

  /** Where a press of the start button stands when its synchronous part is
      over: finished with an outcome, or awaiting the generation request. */
  datatype StartStep = Finished(outcome: StartOutcome) | Awaiting(service: Service, options: AudioOptions)

  /** The part of `handleStartReading` before `await service.generateAudio`. */
  function BeginStartReading(s: AppState): (AppState, StartStep) {
    if Trim(s.extractedContent) == "" then (s, Finished(Ignored))
    else if s.processMode == Stream then (s.(showReaderView := true), Finished(ReaderOpened))
    else if !CanGenerate(s) then
      (s, Finished(FallbackNotice(SetupLine(s.ttsEngine), s.ttsEngine == Some(HuggingFace) && s.huggingFaceApiKey == "")))
    else (s, Awaiting(ServiceOf(s), OptionsOf(s)))
  }

  /** A press of the start button up to the `await`: the store and the step are
      what `BeginStartReading` describes. */
  method PressStart(store: AppStore) returns (step: StartStep)
    modifies store
    ensures (store.state, step) == BeginStartReading(old(store.state))
  {
    var s := store.state;
    if Trim(s.extractedContent) == "" {
      return Finished(Ignored);
    }
    if s.processMode == Stream {
      store.SetShowReaderView(true);
      return Finished(ReaderOpened);
    }
    if !CanGenerate(s) {
      return Finished(FallbackNotice(SetupLine(s.ttsEngine), s.ttsEngine == Some(HuggingFace) && s.huggingFaceApiKey == ""));
    }
    step := Awaiting(ServiceOf(s), OptionsOf(s));
  }

  /** The rest of the handler once the request settles: on failure the error
      is written into the store as it is then, whatever else changed meanwhile. */
  method FinishStartReading(store: AppStore, result: Result<AudioResult, Thrown>) returns (outcome: StartOutcome)
    modifies store
    ensures (store.state, outcome) == AfterGeneration(old(store.state), result)
  {
    match result
    case Success(audio) =>
      outcome := Downloaded(audio.audio);
    case Failure(thrown) =>
      store.SetError(Some(ErrorMessage(thrown)));
      outcome := Failed(ErrorMessage(thrown));
  }

  /** A single press with nothing else happening during the request: the store
      ends in the state `StartReading` describes. */
  method HandleStartReading(store: AppStore, network: TtsRequest -> FetchOutcome) returns (outcome: StartOutcome)
    modifies store
    ensures (store.state, outcome) == StartReading(old(store.state), network)
  {
    var step := PressStart(store);
    match step
    case Finished(o) =>
      outcome := o;
    case Awaiting(service, options) =>
      var result := GenerateAudio(service, options, network);
      outcome := FinishStartReading(store, result);
  }

  /** Nothing marks a generation as under way: a second press while the first
      request is pending leaves the store alone and sends the same request again. */
  lemma PressWhileAwaitingRequestsAgain(s: AppState)
    requires s.processMode == Generate && CanGenerate(s) && !AllSpace(s.extractedContent)
    ensures BeginStartReading(s) == (s, Awaiting(ServiceOf(s), OptionsOf(s)))
    ensures BeginStartReading(BeginStartReading(s).0) == BeginStartReading(s)
  {
  }

  /** Blank content does nothing in either mode. */
  lemma BlankContentIgnored(s: AppState, network: TtsRequest -> FetchOutcome)
    requires AllSpace(s.extractedContent)
    ensures StartReading(s, network) == (s, Ignored)
  {
  }

  /** Stream mode with non-blank content opens the reader and does nothing else. */
  lemma StreamOpensReader(s: AppState, network: TtsRequest -> FetchOutcome)
    requires s.processMode == Stream && !AllSpace(s.extractedContent)
    ensures StartReading(s, network) == (s.(showReaderView := true), ReaderOpened)
  {
  }

  /** The handler changes at most `showReaderView` (set, in stream mode) and
      `error` (set, after a failed generation). */
  lemma StartReadingFrame(s: AppState, network: TtsRequest -> FetchOutcome)
    ensures var (t, out) := StartReading(s, network);
      t == s.(showReaderView := t.showReaderView, error := t.error)
      && (t.showReaderView != s.showReaderView ==> t.showReaderView && out == ReaderOpened)
      && (t.error != s.error ==> out.Failed? && t.error == Some(out.message))
  {
    if AllSpace(s.extractedContent) || s.processMode == Stream || !CanGenerate(s) {
    } else {
      var r := GenerateAudio(ServiceOf(s), OptionsOf(s), network);
      assert StartReading(s, network) == AfterGeneration(s, r);
      AfterGenerationFrame(s, r);
    }
  }

  lemma AfterGenerationFrame(s: AppState, r: Result<AudioResult, Thrown>)
    ensures var (t, out) := AfterGeneration(s, r);
      t == s.(error := t.error) && (t.error != s.error ==> out.Failed? && t.error == Some(out.message))
  {
  }

  /** The network is consulted only in generate mode with a usable configuration;
      in every other case two different networks give the same result. */
  lemma NetworkOnlyWhenConfigured(s: AppState, n1: TtsRequest -> FetchOutcome, n2: TtsRequest -> FetchOutcome)
    requires !(s.processMode == Generate && CanGenerate(s))
    ensures StartReading(s, n1) == StartReading(s, n2)
  {
  }

  /** A download or a failure happens only in generate mode with the Hugging
      Face engine, a key and a voice; a key is then always sent, so the
      service's missing-key failure cannot occur. */
  lemma RemoteOnlyWhenConfigured(s: AppState, network: TtsRequest -> FetchOutcome)
    ensures var out := StartReading(s, network).1;
      (out.Downloaded? || out.Failed?) ==>
        s.processMode == Generate && !AllSpace(s.extractedContent) && CanGenerate(s)
        && RequestFor(ServiceOf(s), OptionsOf(s)).Some?
  {
    if !AllSpace(s.extractedContent) && s.processMode == Generate && CanGenerate(s) {
      assert ServiceOf(s).apiKey == s.huggingFaceApiKey;
    }
  }

  /** A failure's message is the thrown error's message, or the fixed text for
      a thrown value that is not an `Error`. */
  lemma FailureMessage(s: AppState, network: TtsRequest -> FetchOutcome)
    requires s.processMode == Generate && !AllSpace(s.extractedContent) && CanGenerate(s)
    ensures match network(RequestFor(ServiceOf(s), OptionsOf(s)).value)
      case Rejected(ErrorValue(m)) => StartReading(s, network).0.error == Some(m)
      case Rejected(NonErrorValue) => StartReading(s, network).0.error == Some("Audio generation failed")
      case Responded(status, body) =>
        if IsOk(status) then StartReading(s, network).1 == Downloaded(body)
        else StartReading(s, network).0.error == Some(ApiErrorMessage(status, body))
  {
    var r := GenerateAudio(ServiceOf(s), OptionsOf(s), network);
    assert ServiceOf(s).apiKey == s.huggingFaceApiKey;
    assert StartReading(s, network) == AfterGeneration(s, r);
  }

  const PreviewLength := 500

  /** `content.slice(0, 500)` followed by '...' when the content is longer. */
  function Preview(content: string): string {
    if |content| > PreviewLength then content[..PreviewLength] + "..." else content
  }

  /** Short content is shown whole; longer content shows its first 500
      characters and an ellipsis. */
  lemma PreviewShape(content: string)
    ensures |content| <= PreviewLength ==> Preview(content) == content
    ensures |content| > PreviewLength ==>
      |Preview(content)| == PreviewLength + 3 && StartsWith(content, Preview(content)[..PreviewLength])
      && EndsWith(Preview(content), "...")
  {
    if |content| > PreviewLength {
      var p := Preview(content);
      assert p[..PreviewLength] == content[..PreviewLength];
      assert p[PreviewLength..] == "...";
    }
  }

  /** `Math.ceil(wordCount / 200)`, the reading time in minutes. */
  function ReadMinutes(content: string): nat {
    (WordCount(content) + 199) / 200
  }

  /** The reading time is the least whole number of minutes that covers the
      word count at 200 words a minute, and at least one minute. */
  lemma ReadMinutesCeil(content: string)
    ensures ReadMinutes(content) * 200 >= WordCount(content)
    ensures (ReadMinutes(content) - 1) * 200 < WordCount(content)
    ensures ReadMinutes(content) >= 1
  {
  }
}
