/**
 * The Hugging Face text-to-speech client (src/services/huggingface.ts): one
 * request per text to the inference endpoint of a model, and a chunked mode
 * that cuts long text into sentence groups of at most 1000 characters and
 * requests them one after the other.
 *
 * The network is a parameter: `FetchOutcome` is what `fetch` gives back for a
 * request, either a response with a status and a body, or a rejection.
 */
module HuggingFace {
  import opened Wrappers
  import opened Text

  /** A thrown value: an `Error` with its message, or anything else. */
  datatype Thrown = ErrorValue(message: string) | NonErrorValue

  /** The constructor's configuration; absent fields are `None`. */
  datatype TtsConfig = TtsConfig(apiKey: Option<string>, model: Option<string>)

  /** The private fields of a constructed service. */
  datatype Service = Service(apiKey: string, model: string)

  /** `AudioGenerationOptions`: speed and pitch are numbers, `None` when absent. */
  datatype AudioOptions = AudioOptions(text: string, voice: Option<string>, speed: Option<real>, pitch: Option<real>)

  /** The POST request `generateAudio` sends: endpoint, bearer header and JSON body fields. */
  datatype TtsRequest = TtsRequest(url: string, authorization: string, inputs: string, voice: string, speed: real, pitch: real)

  datatype FetchOutcome = Responded(status: int, body: string) | Rejected(thrown: Thrown)

  /** An `AudioGenerationResult` without its object URL: the audio body and the estimated seconds. */
  datatype AudioResult = AudioResult(audio: string, duration: real)

  const BaseUrl := "https://api-inference.huggingface.co/models/"
  const DefaultModel := "hexgrad/Kokoro-82M"
  const KeyRequiredMessage := "Hugging Face API key is required. Please set REACT_APP_HUGGINGFACE_API_KEY environment variable."
  const ApiErrorPrefix := "Hugging Face API error: "
  const TestText := "Hello, this is a test of the Kokoro TTS model."
  const MaxChunkLength := 1000

  /** `x || fallback` on an optional string: absent and empty both fall back. */
  function OrString(x: Option<string>, fallback: string): (r: string)
    ensures x.Some? && x.value != "" ==> r == x.value
    ensures x == None || x == Some("") ==> r == fallback
  {
    if x.Some? && x.value != "" then x.value else fallback
  }

  /** `x || fallback` on an optional number: absent and zero both fall back. */
  function OrReal(x: Option<real>, fallback: real): (r: real)
    ensures x.Some? && x.value != 0.0 ==> r == x.value
    ensures x == None || x == Some(0.0) ==> r == fallback
  {
    if x.Some? && x.value != 0.0 then x.value else fallback
  }

  /** The constructor: a falsy key becomes '' and a falsy model the Kokoro model. */
  function NewService(config: TtsConfig): (s: Service)
    ensures s.apiKey == "" <==> config.apiKey == None || config.apiKey == Some("")
    ensures s.apiKey != "" ==> config.apiKey == Some(s.apiKey)
    ensures config.model == None || config.model == Some("") ==> s.model == DefaultModel
    ensures s.model != "" && (s.model == DefaultModel || config.model == Some(s.model))
  {
    Service(OrString(config.apiKey, ""), OrString(config.model, DefaultModel))
  }

  /** The request `generateAudio` would send, or `None` when the key guard stops it first. */
  function RequestFor(service: Service, options: AudioOptions): (r: Option<TtsRequest>)
    ensures r == None <==> service.apiKey == ""
    ensures r.Some? ==>
      && r.value.url == BaseUrl + service.model
      && r.value.authorization == "Bearer " + service.apiKey
      && r.value.inputs == options.text
  {
    if service.apiKey == "" then None
    else Some(TtsRequest(BaseUrl + service.model, "Bearer " + service.apiKey, options.text,
                         OrString(options.voice, "default"), OrReal(options.speed, 1.0), OrReal(options.pitch, 1.0)))
  }

  /** Every falsy option is replaced by its default, voice 'default', speed and pitch 1.0,
      and every truthy option is sent as given. */
  lemma RequestDefaults(service: Service, options: AudioOptions)
    requires service.apiKey != ""
    ensures var r := RequestFor(service, options).value;
      && (options.voice == None || options.voice == Some("") ==> r.voice == "default")
      && (options.speed == None || options.speed == Some(0.0) ==> r.speed == 1.0)
      && (options.pitch == None || options.pitch == Some(0.0) ==> r.pitch == 1.0)
      && (options.voice.Some? && options.voice.value != "" ==> r.voice == options.voice.value)
      && (options.speed.Some? && options.speed.value != 0.0 ==> r.speed == options.speed.value)
      && (options.pitch.Some? && options.pitch.value != 0.0 ==> r.pitch == options.pitch.value)
      && r.voice != "" && r.speed != 0.0 && r.pitch != 0.0
  {
  }

  /** The number of pieces of `text.split(/\s+/)`: at least one, even for empty text. */
  function WordCount(text: string): (n: nat)
    ensures n >= 1
  {
    |SplitWs(text)|
  }

  /** The estimated seconds at 150 words a minute. */
  function EstimatedDuration(text: string): (d: real)
    ensures d == (WordCount(text) as real) * 2.0 / 5.0
    ensures d >= 0.4
  {
    (WordCount(text) as real / 150.0) * 60.0
  }

  function ApiErrorMessage(status: int, body: string): string {
    ApiErrorPrefix + IntToString(status) + " - " + body
  }

  /** `response.ok`. */
  predicate IsOk(status: int) {
    200 <= status <= 299
  }

  /** `generateAudio` against a network that answers `network(request)`. */
  function GenerateAudio(service: Service, options: AudioOptions, network: TtsRequest -> FetchOutcome): (r: Result<AudioResult, Thrown>)
    ensures service.apiKey == "" ==> r == Failure(ErrorValue(KeyRequiredMessage))
    ensures service.apiKey != "" ==> match network(RequestFor(service, options).value)
      case Rejected(thrown) => r == Failure(thrown)
      case Responded(status, body) =>
        (IsOk(status) ==> r == Success(AudioResult(body, EstimatedDuration(options.text))))
        && (!IsOk(status) ==> r == Failure(ErrorValue(ApiErrorMessage(status, body))))
  {
    match RequestFor(service, options)
    case None => Failure(ErrorValue(KeyRequiredMessage))
    case Some(request) =>
      match network(request)
      case Rejected(thrown) => Failure(thrown)
      case Responded(status, body) =>
        if !IsOk(status) then Failure(ErrorValue(ApiErrorMessage(status, body)))
        else Success(AudioResult(body, EstimatedDuration(options.text)))
  }

  /** Without a key no request is made: the result is the same whatever the network would answer. */
  lemma NoKeyNoRequest(service: Service, options: AudioOptions, n1: TtsRequest -> FetchOutcome, n2: TtsRequest -> FetchOutcome)
    requires service.apiKey == ""
    ensures GenerateAudio(service, options, n1) == GenerateAudio(service, options, n2)
    ensures GenerateAudio(service, options, n1).Failure?
  {
  }

  /** The error for a non-OK response carries the status, readable back from the
      digits after the prefix, and ends with the response body. */
  lemma ApiErrorMessageCarries(status: nat, body: string)
    ensures var m := ApiErrorMessage(status, body);
      var digits := NatToString(status);
      && StartsWith(m, ApiErrorPrefix)
      && m[|ApiErrorPrefix|..|ApiErrorPrefix| + |digits|] == digits
      && DigitsValue(digits) == status
      && EndsWith(m, " - " + body)
  {
    NatToStringValue(status);
    var m := ApiErrorMessage(status, body);
    var digits := NatToString(status);
    assert m == ApiErrorPrefix + digits + (" - " + body);
  }

  /** `getAvailableVoices`: id, name and language of each Kokoro voice. */
  datatype KokoroVoice = KokoroVoice(id: string, name: string, language: string)

  function KokoroVoices(): (vs: seq<KokoroVoice>)
    ensures |vs| == 4
    ensures forall i :: 0 <= i < |vs| ==> vs[i].language == "en-US"
    ensures forall i, j :: 0 <= i < j < |vs| ==> vs[i].id != vs[j].id
  {
    [ KokoroVoice("kokoro-female-1", "Kokoro Female 1", "en-US"),
      KokoroVoice("kokoro-female-2", "Kokoro Female 2", "en-US"),
      KokoroVoice("kokoro-male-1", "Kokoro Male 1", "en-US"),
      KokoroVoice("kokoro-neutral", "Kokoro Neutral", "en-US") ]
  }

  /** The test request got an answer with an OK status. */
  predicate TestAnswered(outcome: FetchOutcome) {
    outcome.Responded? && IsOk(outcome.status)
  }

  /** `testConnection`: true exactly when generating the test sentence succeeds. */
  function TestConnection(service: Service, network: TtsRequest -> FetchOutcome): (ok: bool)
    ensures ok <==> service.apiKey != "" && TestAnswered(network(RequestFor(service, AudioOptions(TestText, None, None, None)).value))
  {
    GenerateAudio(service, AudioOptions(TestText, None, None, None), network).Success?
  }

  // ---------------------------------------------------------------- sentences

  predicate IsTerminator(c: char) {
    c == '.' || c == '!' || c == '?'
  }

  /** The length of the leading run of characters other than terminators. */
  function PlainRun(s: string): (n: nat)
    ensures n <= |s|
    ensures n < |s| ==> IsTerminator(s[n])
  {
    if s == [] || IsTerminator(s[0]) then 0 else 1 + PlainRun(s[1..])
  }

  /** The length of the leading run of terminators. */
  function TermRun(s: string): (n: nat)
    ensures n <= |s|
    ensures n < |s| ==> !IsTerminator(s[n])
  {
    if s == [] || !IsTerminator(s[0]) then 0 else 1 + TermRun(s[1..])
  }

  /** The run `PlainRun` measures holds no terminator. */
  lemma {:induction false} PlainRunPlain(s: string)
    ensures forall i :: 0 <= i < PlainRun(s) ==> !IsTerminator(s[i])
    decreases |s|
  {
    if s != [] && !IsTerminator(s[0]) {
      PlainRunPlain(s[1..]);
      forall i | 0 < i < PlainRun(s) ensures !IsTerminator(s[i]) {
        assert s[i] == s[1..][i - 1];
      }
    }
  }

  /** The run `TermRun` measures is all terminators. */
  lemma {:induction false} TermRunTerms(s: string)
    ensures forall i :: 0 <= i < TermRun(s) ==> IsTerminator(s[i])
    decreases |s|
  {
    if s != [] && IsTerminator(s[0]) {
      TermRunTerms(s[1..]);
      forall i | 0 < i < TermRun(s) ensures IsTerminator(s[i]) {
        assert s[i] == s[1..][i - 1];
      }
    }
  }

  /** Where a match that starts at the front of `s` ends: after the plain run
      and the terminator run that follows it. */
  function MatchEnd(s: string): (m: nat)
    ensures PlainRun(s) <= m <= |s|
    ensures s != [] && !IsTerminator(s[0]) ==> m > 0
  {
    PlainRun(s) + TermRun(s[PlainRun(s)..])
  }

  /** A match of `/[^\.!?]+[\.!?]+/`: non-terminators, then terminators, at least one of each. */
  predicate IsSentence(x: string) {
    var n := PlainRun(x);
    0 < n < |x| && TermRun(x[n..]) == |x| - n
  }

  /** `text.match(/[^\.!?]+[\.!?]+/g)`, with `[]` for no match: scanning from the
      left, stray terminators are skipped, each match takes its terminator run
      whole, and text after the last terminator matches nothing. */
  function MatchSentences(s: string): seq<string>
    decreases |s|
  {
    if s == [] then []
    else if IsTerminator(s[0]) then MatchSentences(s[1..])
    else
      if PlainRun(s) == |s| then []
      else [s[..MatchEnd(s)]] + MatchSentences(s[MatchEnd(s)..])
  }

  /** Every match has the shape of the pattern. */
  lemma {:induction false} MatchesAreSentences(s: string)
    ensures forall i :: 0 <= i < |MatchSentences(s)| ==> IsSentence(MatchSentences(s)[i])
    decreases |s|
  {
    if s != [] {
      if IsTerminator(s[0]) {
        MatchesAreSentences(s[1..]);
      } else if PlainRun(s) < |s| {
        var m := MatchEnd(s);
        MatchesAreSentences(s[m..]);
        LeadingMatchIsSentence(s, m);
      }
    }
  }

  lemma LeadingMatchIsSentence(s: string, m: nat)
    requires s != [] && !IsTerminator(s[0]) && PlainRun(s) < |s|
    requires m == MatchEnd(s)
    requires forall i :: 0 <= i < |MatchSentences(s[m..])| ==> IsSentence(MatchSentences(s[m..])[i])
    ensures forall i :: 0 <= i < |MatchSentences(s)| ==> IsSentence(MatchSentences(s)[i])
  {
    LeadingMatchShape(s, m);
    MatchSentencesUnfold(s);
  }

  /** The leading match has the shape of the pattern. */
  lemma LeadingMatchShape(s: string, m: nat)
    requires s != [] && !IsTerminator(s[0]) && PlainRun(s) < |s|
    requires m == MatchEnd(s)
    ensures IsSentence(s[..m])
  {
    var n := PlainRun(s);
    PlainRunPrefix(s, m);
    assert s[..m][n..] == s[n..m];
    TermRunPrefix(s[n..], m - n);
    assert s[n..][..m - n] == s[n..m];
  }

  lemma MatchSentencesUnfold(s: string)
    requires s != [] && !IsTerminator(s[0]) && PlainRun(s) < |s|
    ensures var m := MatchEnd(s);
      MatchSentences(s) == [s[..m]] + MatchSentences(s[m..])
  {
  }

  lemma {:induction false} PlainRunPrefix(s: string, m: nat)
    requires PlainRun(s) <= m <= |s|
    ensures PlainRun(s[..m]) == PlainRun(s)
    decreases |s|
  {
    if s != [] && !IsTerminator(s[0]) {
      assert s[..m][1..] == s[1..][..m - 1];
      PlainRunPrefix(s[1..], m - 1);
    }
  }

  lemma {:induction false} TermRunPrefix(s: string, m: nat)
    requires m == TermRun(s)
    ensures TermRun(s[..m]) == m
    decreases |s|
  {
    if m > 0 {
      assert s[..m][1..] == s[1..][..m - 1];
      TermRunPrefix(s[1..], m - 1);
    }
  }

  /** Where the text after the last match begins. */
  function TailStart(s: string): (k: nat)
    ensures k <= |s|
    decreases |s|
  {
    if s == [] then 0
    else if IsTerminator(s[0]) then 1 + TailStart(s[1..])
    else if PlainRun(s) == |s| then 0
    else MatchEnd(s) + TailStart(s[MatchEnd(s)..])
  }

  /** The text after the last match, which no sentence takes. */
  function Unmatched(s: string): string {
    s[TailStart(s)..]
  }

  /** The unmatched tail holds no terminator. */
  lemma {:induction false} UnmatchedPlain(s: string)
    ensures forall i :: 0 <= i < |Unmatched(s)| ==> !IsTerminator(Unmatched(s)[i])
    decreases |s|
  {
    if s != [] {
      if IsTerminator(s[0]) {
        UnmatchedPlain(s[1..]);
        StrayUnfold(s);
      } else if PlainRun(s) == |s| {
        PlainRunPlain(s);
      } else {
        var m := MatchEnd(s);
        UnmatchedPlain(s[m..]);
        UnmatchedUnfold(s, m);
      }
    }
  }

  /** The matches lose nothing but the leading terminators and the unterminated tail:
      the text is those terminators, then the sentences in order, then the tail. */
  lemma {:induction false} MatchCovers(s: string)
    ensures s == s[..TermRun(s)] + Flatten(MatchSentences(s)) + Unmatched(s)
    decreases |s|
  {
    if s == [] {
    } else if IsTerminator(s[0]) {
      MatchCovers(s[1..]);
      MatchCoversStray(s);
    } else if PlainRun(s) < |s| {
      var m := MatchEnd(s);
      MatchCovers(s[m..]);
      MatchCoversSentence(s, m);
    } else {
      MatchCoversPlain(s);
    }
  }

  /** A stray leading terminator joins the skipped prefix. */
  lemma MatchCoversStray(s: string)
    requires s != [] && IsTerminator(s[0])
    requires s[1..] == s[1..][..TermRun(s[1..])] + Flatten(MatchSentences(s[1..])) + Unmatched(s[1..])
    ensures s == s[..TermRun(s)] + Flatten(MatchSentences(s)) + Unmatched(s)
  {
    var k := TermRun(s[1..]);
    var lead, body, tail := s[1..][..k], Flatten(MatchSentences(s[1..])), Unmatched(s[1..]);
    StrayUnfold(s);
    assert s[..k + 1] == [s[0]] + lead;
    SeqFirstRest(s);
    ConcatAssoc([s[0]], lead, body, tail);
  }

  /** A stray leading terminator lengthens the leading run and changes nothing else. */
  lemma StrayUnfold(s: string)
    requires s != [] && IsTerminator(s[0])
    ensures TermRun(s) == TermRun(s[1..]) + 1
    ensures MatchSentences(s) == MatchSentences(s[1..])
    ensures Unmatched(s) == Unmatched(s[1..])
  {
    assert TailStart(s) == 1 + TailStart(s[1..]);
    SliceOfSlice(s, 1, TailStart(s[1..]));
  }

  lemma ConcatAssoc<T>(a: seq<T>, b: seq<T>, c: seq<T>, d: seq<T>)
    ensures a + (b + c + d) == (a + b) + c + d
  {
  }

  lemma Regroup<T>(x: seq<T>, m: nat, z: nat, body: seq<T>, tail: seq<T>, f: seq<T>)
    requires m <= |x| && z == 0 && x[m..] == x[m..][..z] + body + tail && f == x[..m] + body
    ensures x == x[..0] + f + tail
  {
    assert x[m..][..z] == [];
    assert x == x[..m] + x[m..];
  }

  /** The scan resumes after a match at a character that is not a terminator. */
  lemma ResumesPlain(s: string, m: nat)
    requires s != [] && !IsTerminator(s[0]) && PlainRun(s) < |s|
    requires m == MatchEnd(s)
    ensures TermRun(s[m..]) == 0
  {
    var n := PlainRun(s);
    if m < |s| {
      assert s[m..][0] == s[n..][m - n];
    }
  }

  /** After a leading match, the unmatched tail is that of the rest. */
  lemma UnmatchedUnfold(s: string, m: nat)
    requires s != [] && !IsTerminator(s[0]) && PlainRun(s) < |s|
    requires m == MatchEnd(s)
    ensures Unmatched(s) == Unmatched(s[m..])
  {
    TailStartUnfold(s, m);
    SliceOfSlice(s, m, TailStart(s[m..]));
  }

  lemma TailStartUnfold(s: string, m: nat)
    requires s != [] && !IsTerminator(s[0]) && PlainRun(s) < |s|
    requires m == MatchEnd(s)
    ensures TailStart(s) == m + TailStart(s[m..])
  {
  }

  lemma SliceOfSlice<T>(s: seq<T>, m: nat, t: nat)
    requires m + t <= |s|
    ensures s[m + t..] == s[m..][t..]
  {
  }

  /** A leading match is the first sentence, and the scan resumes right after it. */
  lemma MatchCoversSentence(s: string, m: nat)
    requires s != [] && !IsTerminator(s[0]) && PlainRun(s) < |s|
    requires m == MatchEnd(s)
    requires s[m..] == s[m..][..TermRun(s[m..])] + Flatten(MatchSentences(s[m..])) + Unmatched(s[m..])
    ensures s == s[..TermRun(s)] + Flatten(MatchSentences(s)) + Unmatched(s)
  {
    MatchStep(s, m);
    Regroup(s, m, TermRun(s[m..]), Flatten(MatchSentences(s[m..])), Unmatched(s[m..]), Flatten(MatchSentences(s)));
  }

  /** How the scan unfolds over a leading match: no terminator opens either
      side, the match heads the sentences and the tail is the rest's. */
  lemma MatchStep(s: string, m: nat)
    requires s != [] && !IsTerminator(s[0]) && PlainRun(s) < |s|
    requires m == MatchEnd(s)
    ensures TermRun(s) == 0 && TermRun(s[m..]) == 0
    ensures Unmatched(s) == Unmatched(s[m..])
    ensures Flatten(MatchSentences(s)) == s[..m] + Flatten(MatchSentences(s[m..]))
  {
    ResumesPlain(s, m);
    UnmatchedUnfold(s, m);
    MatchSentencesUnfold(s);
    FlattenCons(s[..m], MatchSentences(s[m..]));
  }

  /** Text without a terminator matches nothing and is all tail. */
  lemma MatchCoversPlain(s: string)
    requires s != [] && !IsTerminator(s[0]) && PlainRun(s) == |s|
    ensures s == s[..TermRun(s)] + Flatten(MatchSentences(s)) + Unmatched(s)
  {
    assert TermRun(s) == 0 && MatchSentences(s) == [] && TailStart(s) == 0;
    assert s[..0] + [] + s[0..] == s;
  }

  /** The sentence list used for chunking: the matches, or the whole text when nothing matches. */
  function Sentences(text: string): (r: seq<string>)
    ensures |r| >= 1
    ensures MatchSentences(text) == [] ==> r == [text]
    ensures MatchSentences(text) != [] ==> forall i :: 0 <= i < |r| ==> IsSentence(r[i])
  {
    MatchesAreSentences(text);
    var m := MatchSentences(text);
    if m == [] then [text] else m
  }

  // ------------------------------------------------------------------ chunks

  /** The state of the accumulation loop: the sentence groups already pushed,
      and the group making up `currentChunk`. */
  datatype Partial = Partial(closed: seq<seq<string>>, current: seq<string>)

  /** One turn of the accumulation loop: the current group is closed only when
      the next sentence would take it past 1000 characters and it is not empty. */
  function Step(p: Partial, x: string): Partial {
    if |Flatten(p.current)| + |x| > MaxChunkLength && Flatten(p.current) != "" then Partial(p.closed + [p.current], [x])
    else Partial(p.closed, p.current + [x])
  }

  /** The accumulation loop over the sentences `ss`. */
  function Partition(ss: seq<string>): Partial
    decreases |ss|
  {
    if ss == [] then Partial([], []) else Step(Partition(ss[..|ss| - 1]), ss[|ss| - 1])
  }

  /** The groups the loop has built so far, the open one last. */
  function Groups(p: Partial): seq<seq<string>> {
    p.closed + [p.current]
  }

  /** A group's chunk text: its sentences joined, trimmed. */
  function GroupText(g: seq<string>): string {
    Trim(Flatten(g))
  }

  /** The pushed chunks: each closed group's text, in order. */
  function ClosedTexts(closed: seq<seq<string>>): (r: seq<string>)
    ensures |r| == |closed|
  {
    MapSeq(GroupText, closed)
  }

  /** `f` applied to every element, in order. */
  function MapSeq<A, B>(f: A -> B, xs: seq<A>): (r: seq<B>)
    ensures |r| == |xs|
  {
    if xs == [] then [] else MapSeq(f, xs[..|xs| - 1]) + [f(xs[|xs| - 1])]
  }

  lemma {:induction false} MapSeqAt<A, B>(f: A -> B, xs: seq<A>, k: nat)
    requires k < |xs|
    ensures MapSeq(f, xs)[k] == f(xs[k])
  {
    var n := |xs| - 1;
    if k < n {
      MapSeqAt(f, xs[..n], k);
      assert xs[..n][k] == xs[k];
    }
  }

  lemma MapSeqSnoc<A, B>(f: A -> B, xs: seq<A>, x: A)
    ensures MapSeq(f, xs + [x]) == MapSeq(f, xs) + [f(x)]
  {
    assert (xs + [x])[..|xs|] == xs;
  }

  /** The k-th pushed chunk is the k-th closed group's text. */
  lemma ClosedTextsAt(closed: seq<seq<string>>, k: nat)
    requires k < |closed|
    ensures ClosedTexts(closed)[k] == GroupText(closed[k])
  {
    MapSeqAt(GroupText, closed, k);
  }

  /** The chunks of a loop state: the closed ones, then the open one if it trims non-empty. */
  function PartialTexts(p: Partial): seq<string> {
    var last := GroupText(p.current);
    ClosedTexts(p.closed) + (if last != "" then [last] else [])
  }

  /** The chunks of a sentence list. */
  function ChunkTexts(ss: seq<string>): seq<string> {
    PartialTexts(Partition(ss))
  }

  lemma StepFlatten(p: Partial, x: string)
    ensures Flatten(Groups(Step(p, x))) == Flatten(Groups(p)) + [x]
  {
    FlattenSnoc(p.closed, p.current);
    if |Flatten(p.current)| + |x| > MaxChunkLength && Flatten(p.current) != "" {
      FlattenSnoc(p.closed + [p.current], [x]);
      FlattenCons([x], []);
    } else {
      FlattenSnoc(p.closed, p.current + [x]);
    }
  }

  /** The untrimmed groups concatenate back to the sentence list. */
  lemma {:induction false} PartitionFlatten(ss: seq<string>)
    ensures Flatten(Groups(Partition(ss))) == ss
    decreases |ss|
  {
    if ss != [] {
      var init := ss[..|ss| - 1];
      PartitionFlatten(init);
      StepFlatten(Partition(init), ss[|ss| - 1]);
      SeqSplitAt(ss, |ss| - 1);
    }
  }

  /** The loop's group bookkeeping for non-empty sentences: closed groups are
      not empty, and the open group is empty exactly when its text is. */
  predicate Shaped(p: Partial) {
    && (p.closed != [] ==> p.current != [])
    && (p.current == [] <==> Flatten(p.current) == "")
    && (forall k :: 0 <= k < |p.closed| ==> p.closed[k] != [])
  }

  /** A group of two or more sentences fits in 1000 characters. */
  predicate Bounded(p: Partial) {
    forall k :: 0 <= k < |Groups(p)| && |Groups(p)[k]| >= 2 ==> |Flatten(Groups(p)[k])| <= MaxChunkLength
  }

  /** Each closed group was closed because the first sentence of the next group did not fit. */
  predicate Greedy(p: Partial) {
    forall k :: 0 <= k < |p.closed| ==> ClosedBefore(p.closed[k], Groups(p)[k + 1])
  }

  /** `group` was closed because `next`'s first sentence did not fit after it. */
  predicate ClosedBefore(group: seq<string>, next: seq<string>) {
    next != [] && |Flatten(group)| + |next[0]| > MaxChunkLength
  }

  lemma StepShaped(p: Partial, x: string)
    requires Shaped(p) && x != ""
    ensures Shaped(Step(p, x))
  {
    var q := Step(p, x);
    if |Flatten(p.current)| + |x| > MaxChunkLength && Flatten(p.current) != "" {
      FlattenCons(x, []);
    } else {
      FlattenSnoc(p.current, x);
    }
  }

  lemma StepBounded(p: Partial, x: string)
    requires Shaped(p) && Bounded(p) && x != ""
    ensures Bounded(Step(p, x))
  {
    var q := Step(p, x);
    if |Flatten(p.current)| + |x| > MaxChunkLength && Flatten(p.current) != "" {
      assert Groups(q) == Groups(p) + [[x]];
    } else {
      FlattenSnoc(p.current, x);
      forall k | 0 <= k < |Groups(q)| && |Groups(q)[k]| >= 2
        ensures |Flatten(Groups(q)[k])| <= MaxChunkLength
      {
        if k < |p.closed| {
          assert Groups(q)[k] == Groups(p)[k];
        }
      }
    }
  }

  lemma StepGreedy(p: Partial, x: string)
    requires Shaped(p) && Greedy(p)
    ensures Greedy(Step(p, x))
  {
    var q := Step(p, x);
    if |Flatten(p.current)| + |x| > MaxChunkLength && Flatten(p.current) != "" {
      assert Groups(q) == Groups(p) + [[x]];
      assert ClosedBefore(p.current, [x]);
    } else {
      assert q == Partial(p.closed, p.current + [x]);
      forall k | 0 <= k < |q.closed|
        ensures ClosedBefore(q.closed[k], Groups(q)[k + 1])
      {
        if k + 1 < |p.closed| {
          assert Groups(q)[k + 1] == Groups(p)[k + 1];
        } else {
          assert Groups(q)[k + 1] == q.current && Groups(p)[k + 1] == p.current;
          assert q.current[0] == p.current[0];
        }
      }
      assert Greedy(q);
    }
  }

  /** For non-empty sentences the groups keep their shape, a group longer than
      1000 characters is a single sentence, and groups are closed greedily. */
  lemma {:induction false} PartitionBounds(ss: seq<string>)
    requires forall i :: 0 <= i < |ss| ==> ss[i] != ""
    ensures Shaped(Partition(ss)) && Bounded(Partition(ss)) && Greedy(Partition(ss))
    decreases |ss|
  {
    if ss != [] {
      var init := ss[..|ss| - 1];
      PartitionBounds(init);
      StepShaped(Partition(init), ss[|ss| - 1]);
      StepBounded(Partition(init), ss[|ss| - 1]);
      StepGreedy(Partition(init), ss[|ss| - 1]);
    }
  }

  /** The bounds for every text: whatever the text, a chunk group longer than
      1000 characters is a single sentence and each group was closed because
      the next sentence did not fit; only the empty text, whose one sentence is
      empty, leaves an open group with no text. */
  lemma TextPartitionBounds(text: string)
    ensures Bounded(Partition(Sentences(text))) && Greedy(Partition(Sentences(text)))
    ensures text != "" ==> Shaped(Partition(Sentences(text)))
    ensures text == "" ==> Partition(Sentences(text)) == Partial([], [""])
  {
    var ss := Sentences(text);
    if text == "" {
      assert MatchSentences(text) == [];
      assert ss[..0] == [];
      assert Partition(ss) == Step(Partial([], []), "");
    } else {
      forall i | 0 <= i < |ss| ensures ss[i] != "" {
        if MatchSentences(text) != [] {
          SentenceNotBlank(ss[i]);
        }
      }
      PartitionBounds(ss);
    }
  }

  /** A string with a non-whitespace character somewhere keeps it after anything is appended. */
  lemma NotAllSpaceAppend(a: string, b: string)
    requires !AllSpace(a)
    ensures !AllSpace(a + b)
  {
    var i :| 0 <= i < |a| && !IsSpace(a[i]);
    assert (a + b)[i] == a[i];
  }

  /** A group whose first sentence is not all whitespace has a non-empty trimmed text. */
  lemma GroupTextNotBlank(g: seq<string>)
    requires g != [] && !AllSpace(g[0])
    ensures GroupText(g) != ""
  {
    FlattenFirst(g);
    NotAllSpaceAppend(g[0], Flatten(g[1..]));
  }

  /** A matched sentence ends in a terminator, which is not whitespace. */
  lemma SentenceNotBlank(x: string)
    requires IsSentence(x)
    ensures x != "" && !AllSpace(x)
  {
    var n := PlainRun(x);
    TermRunTerms(x[n..]);
    assert x[n..][0] == x[n];
  }

  /** The first element of a non-empty member of a flattened list is an element of the flattening. */
  lemma {:induction false} FlattenMember<T>(xss: seq<seq<T>>, k: nat)
    requires k < |xss| && xss[k] != []
    ensures xss[k][0] in Flatten(xss)
    decreases k
  {
    FlattenFirst(xss);
    if k > 0 {
      FlattenMember(xss[1..], k - 1);
    }
  }

  /** When no sentence is blank, no closed group trims to nothing. */
  lemma ClosedNotBlank(ss: seq<string>)
    requires forall i :: 0 <= i < |ss| ==> ss[i] != "" && !AllSpace(ss[i])
    ensures forall k :: 0 <= k < |Partition(ss).closed| ==> GroupText(Partition(ss).closed[k]) != ""
  {
    var p := Partition(ss);
    PartitionBounds(ss);
    PartitionFlatten(ss);
    forall k | 0 <= k < |p.closed| ensures GroupText(p.closed[k]) != "" {
      assert p.closed[k] == Groups(p)[k];
      FlattenMember(Groups(p), k);
      GroupTextNotBlank(p.closed[k]);
    }
  }

  /** A single sentence closes no group. */
  lemma PartitionSingle(x: string)
    ensures Partition([x]).closed == []
  {
    assert [x][..0] == [];
  }

  /** No chunk of a text is empty and every chunk is already trimmed. */
  lemma ChunksTrimmedNonEmpty(text: string)
    ensures forall k :: 0 <= k < |ChunkTexts(Sentences(text))| ==>
      ChunkTexts(Sentences(text))[k] != "" && Trim(ChunkTexts(Sentences(text))[k]) == ChunkTexts(Sentences(text))[k]
  {
    var ss := Sentences(text);
    var p := Partition(ss);
    if MatchSentences(text) == [] {
      PartitionSingle(text);
    } else {
      forall i | 0 <= i < |ss| ensures ss[i] != "" && !AllSpace(ss[i]) {
        SentenceNotBlank(ss[i]);
      }
      ClosedNotBlank(ss);
    }
    ChunkTextsTrimmed(ss);
  }

  /** Every chunk is a trimmed text, and the closed ones are non-empty when their groups are not blank. */
  lemma ChunkTextsTrimmed(ss: seq<string>)
    requires forall k :: 0 <= k < |Partition(ss).closed| ==> GroupText(Partition(ss).closed[k]) != ""
    ensures forall k :: 0 <= k < |ChunkTexts(ss)| ==> ChunkTexts(ss)[k] != "" && Trim(ChunkTexts(ss)[k]) == ChunkTexts(ss)[k]
  {
    PartialTextsTrimmed(Partition(ss));
  }

  lemma PartialTextsTrimmed(p: Partial)
    requires forall k :: 0 <= k < |p.closed| ==> GroupText(p.closed[k]) != ""
    ensures forall k :: 0 <= k < |PartialTexts(p)| ==> PartialTexts(p)[k] != "" && Trim(PartialTexts(p)[k]) == PartialTexts(p)[k]
  {
    var ct, last := ClosedTexts(p.closed), GroupText(p.current);
    var cs := PartialTexts(p);
    assert cs == ct + (if last != "" then [last] else []);
    forall k | 0 <= k < |cs| ensures cs[k] != "" && Trim(cs[k]) == cs[k] {
      if k < |ct| {
        assert cs[k] == ct[k];
        ClosedTextsAt(p.closed, k);
        GroupTextTrimmed(p.closed[k]);
      } else {
        assert cs[k] == last;
        GroupTextTrimmed(p.current);
      }
    }
  }

  lemma GroupTextTrimmed(g: seq<string>)
    ensures Trim(GroupText(g)) == GroupText(g)
  {
    TrimIdempotent(Flatten(g));
  }

  lemma PartitionSnoc(ss: seq<string>, i: nat)
    requires i < |ss|
    ensures Partition(ss[..i + 1]) == Step(Partition(ss[..i]), ss[i])
  {
    assert ss[..i + 1][..i] == ss[..i];
  }

  lemma ClosedTextsSnoc(cs: seq<seq<string>>, g: seq<string>)
    ensures ClosedTexts(cs + [g]) == ClosedTexts(cs) + [GroupText(g)]
  {
    MapSeqSnoc(GroupText, cs, g);
  }

  /** The chunking loop of `generateAudioWithChunks`. */
  method SplitIntoChunks(text: string) returns (chunks: seq<string>)
    ensures chunks == ChunkTexts(Sentences(text))
  {
    var sentences := Sentences(text);
    chunks := [];
    var currentChunk := "";
    var i := 0;
    ghost var p := Partial([], []);
    while i < |sentences|
      invariant 0 <= i <= |sentences|
      invariant p == Partition(sentences[..i])
      invariant chunks == ClosedTexts(p.closed) && currentChunk == Flatten(p.current)
    {
      var sentence := sentences[i];
      PartitionSnoc(sentences, i);
      if |currentChunk + sentence| > MaxChunkLength && currentChunk != "" {
        ClosedTextsSnoc(p.closed, p.current);
        chunks := chunks + [Trim(currentChunk)];
        currentChunk := sentence;
        FlattenCons(sentence, []);
      } else {
        FlattenSnoc(p.current, sentence);
        currentChunk := currentChunk + sentence;
      }
      p := Step(p, sentence);
      i := i + 1;
    }
    assert sentences[..i] == sentences;
    if Trim(currentChunk) != "" {
      chunks := chunks + [Trim(currentChunk)];
    }
  }

  /** Options for every chunk request, without the text. */
  datatype ChunkOptions = ChunkOptions(voice: Option<string>, speed: Option<real>, pitch: Option<real>)

  function WithText(options: ChunkOptions, text: string): AudioOptions {
    AudioOptions(text, options.voice, options.speed, options.pitch)
  }

  /** The outcome of the generation loop: every result in chunk order, the
      first chunk whose request failed, or the first chunk whose `onChunkReady`
      call threw after its request had succeeded. */
  datatype ChunkRun =
    | AllGenerated(results: seq<AudioResult>)
    | ChunkFailed(index: nat, error: Thrown)
    | CallbackFailed(index: nat, error: Thrown)

  /** The optional `onChunkReady` argument: what it throws, if anything, when
      handed a chunk's result and index. */
  datatype Callback = NoCallback | OnChunkReady(throws: (AudioResult, nat) -> Option<Thrown>)

  /** What calling the callback, if there is one, throws. */
  function CallbackThrows(callback: Callback, result: AudioResult, i: nat): Option<Thrown> {
    match callback
    case NoCallback => None
    case OnChunkReady(throws) => throws(result, i)
  }

  /** The network as seen by the `i`th request. */
  function AtCall(network: (nat, TtsRequest) -> FetchOutcome, i: nat): TtsRequest -> FetchOutcome {
    request => network(i, request)
  }

  /** What the `i`th chunk request gives back. */
  function ChunkCall(service: Service, options: ChunkOptions, chunks: seq<string>,
                     network: (nat, TtsRequest) -> FetchOutcome, i: nat): Result<AudioResult, Thrown>
    requires i < |chunks|
  {
    GenerateAudio(service, WithText(options, chunks[i]), AtCall(network, i))
  }

  /** The indices `0 .. n-1`, in order. */
  predicate CountsUpTo(xs: seq<nat>, n: nat) {
    |xs| == n && forall j :: 0 <= j < n ==> xs[j] == j
  }

  /** How many times the callback was reached in a run. */
  function CallbackCalls(run: ChunkRun): nat {
    match run
    case AllGenerated(results) => |results|
    case ChunkFailed(index, _) => index
    case CallbackFailed(index, _) => index + 1
  }

  /** What the chunk requests give back, by index; `request(i)` answers chunk `i`. */
  function ChunkRequests(service: Service, options: ChunkOptions, chunks: seq<string>,
                         network: (nat, TtsRequest) -> FetchOutcome): nat -> Result<AudioResult, Thrown>
  {
    (i: nat) => if i < |chunks| then ChunkCall(service, options, chunks, network, i) else Failure(NonErrorValue)
  }

  /** Request `i` succeeded and the callback did not throw on its result. */
  predicate Passed(request: nat -> Result<AudioResult, Thrown>, callback: Callback, i: nat) {
    request(i).Success? && CallbackThrows(callback, request(i).value, i).None?
  }

  /**
   * `generateAudioWithChunks`: chunk the text, then request the chunks one at a
   * time and in order, handing each result to the callback with its index, and
   * stop at the first request or callback that throws. `network(i, request)`
   * answers the `i`th request; `ready` lists the indices passed to the callback.
   */
  method GenerateAudioWithChunks(service: Service, text: string, options: ChunkOptions,
                                 network: (nat, TtsRequest) -> FetchOutcome, callback: Callback)
    returns (chunks: seq<string>, run: ChunkRun, ready: seq<nat>)
    ensures chunks == ChunkTexts(Sentences(text))
    ensures RunReports(run, ready, |chunks|, ChunkRequests(service, options, chunks, network), callback)
  {
    chunks := SplitIntoChunks(text);
    run, ready := GenerateChunks(|chunks|, ChunkRequests(service, options, chunks, network), callback);
  }

  /**
   * How a run over `count` chunks answered by `request` ends: with every result,
   * in chunk order, when no request or callback threw; otherwise at the first
   * chunk whose request failed, or whose callback threw after its request
   * succeeded, with every earlier chunk passed. `ready` holds the indices the
   * callback was handed, in order.
   */
  predicate RunReports(run: ChunkRun, ready: seq<nat>, count: nat,
                       request: nat -> Result<AudioResult, Thrown>, callback: Callback)
  {
    && (run.AllGenerated? ==>
          && |run.results| == count
          && forall i :: 0 <= i < count ==>
               request(i) == Success(run.results[i]) && CallbackThrows(callback, run.results[i], i) == None)
    && (run.ChunkFailed? ==>
          && run.index < count
          && request(run.index) == Failure(run.error)
          && forall i :: 0 <= i < run.index ==> Passed(request, callback, i))
    && (run.CallbackFailed? ==>
          && run.index < count
          && request(run.index).Success?
          && CallbackThrows(callback, request(run.index).value, run.index) == Some(run.error)
          && forall i :: 0 <= i < run.index ==> Passed(request, callback, i))
    && (if callback.OnChunkReady? then CountsUpTo(ready, CallbackCalls(run)) else ready == [])
  }

  /**
   * The request loop over `count` chunks, with `request(i)` the outcome of
   * awaiting `generateAudio` for chunk `i`: requests run in index order, and the
   * first request or callback that throws ends the loop with its error.
   */
  method GenerateChunks(count: nat, request: nat -> Result<AudioResult, Thrown>, callback: Callback)
    returns (run: ChunkRun, ready: seq<nat>)
    ensures RunReports(run, ready, count, request, callback)
  {
    var results: seq<AudioResult> := [];
    ready := [];
    var i := 0;
    while i < count
      invariant 0 <= i <= count && |results| == i
      invariant forall j :: 0 <= j < i ==>
        request(j) == Success(results[j]) && CallbackThrows(callback, results[j], j) == None
      invariant if callback.OnChunkReady? then CountsUpTo(ready, i) else ready == []
    {
      var outcome := request(i);
      if outcome.Failure? {
        run := ChunkFailed(i, outcome.error);
        return;
      }
      results := results + [outcome.value];
      if callback.OnChunkReady? {
        ready := ready + [i];
        var thrown := callback.throws(outcome.value, i);
        if thrown.Some? {
          run := CallbackFailed(i, thrown.value);
          return;
        }
      }
      i := i + 1;
    }
    run := AllGenerated(results);
  }

  /** Where a run stops, as `Passed` sees it: a run that stops early stops at
      the first chunk that did not pass; a run that does not stop passes them all. */
  lemma RunStops(run: ChunkRun, ready: seq<nat>, count: nat,
                 request: nat -> Result<AudioResult, Thrown>, callback: Callback)
    requires RunReports(run, ready, count, request, callback)
    ensures run.AllGenerated? ==> forall i :: 0 <= i < count ==> Passed(request, callback, i)
    ensures !run.AllGenerated? ==>
      run.index < count && !Passed(request, callback, run.index) &&
      forall i :: 0 <= i < run.index ==> Passed(request, callback, i)
  {
  }

  /**
   * A run is determined by the requests and the callback: two runs that both
   * satisfy `RunReports` are the same run with the same callback indices, so
   * the loop's outcome is the first request or callback that throws.
   */
  lemma RunReportsUnique(run1: ChunkRun, ready1: seq<nat>, run2: ChunkRun, ready2: seq<nat>, count: nat,
                         request: nat -> Result<AudioResult, Thrown>, callback: Callback)
    requires RunReports(run1, ready1, count, request, callback)
    requires RunReports(run2, ready2, count, request, callback)
    ensures run1 == run2 && ready1 == ready2
  {
    RunStops(run1, ready1, count, request, callback);
    RunStops(run2, ready2, count, request, callback);
    if run1.AllGenerated? && run2.AllGenerated? {
      assert run1.results == run2.results by {
        forall i | 0 <= i < count ensures run1.results[i] == run2.results[i] {
          assert request(i) == Success(run1.results[i]);
        }
      }
    }
    if callback.OnChunkReady? {
      assert ready1 == ready2 by {
        forall j | 0 <= j < |ready1| ensures ready1[j] == ready2[j] { }
      }
    }
  }

  /** A callback that throws on the first chunk's result ends the run there,
      after that one successful request, with the callback's error. */
  lemma CallbackThrowStops(run: ChunkRun, ready: seq<nat>, count: nat,
                           request: nat -> Result<AudioResult, Thrown>,
                           throws: (AudioResult, nat) -> Option<Thrown>)
    requires RunReports(run, ready, count, request, OnChunkReady(throws))
    requires 0 < count && request(0).Success? && throws(request(0).value, 0).Some?
    ensures run == CallbackFailed(0, throws(request(0).value, 0).value) && ready == [0]
  {
    var expected := CallbackFailed(0, throws(request(0).value, 0).value);
    assert CountsUpTo([0], CallbackCalls(expected));
    RunReportsUnique(run, ready, expected, [0], count, request, OnChunkReady(throws));
  }
}
