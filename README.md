# web2speech in Dafny

Web2Speech turns web pages, PDFs and text into speech. The project models its
decision and state-update logic:

- The React application:
  - the zustand store of application state with its one-field setters (`store.dfy`);
  - the reader view, which tokenizes the extracted text, speaks it from the current word, advances a word index with an interval timer, and pauses and skips by twenty words (`reader.dfy`);
  - the Hugging Face text-to-speech service, with its request defaults, sentence chunker and in-order generation loop (`huggingface.dfy`);
  - the voice and engine pickers (`voice_selection.dfy`, `engine_selection.dfy`);
  - the start button's dispatch and the content preview (`app.dfy`).
- The server-rendered page's script, covering tab cycling, keyboard shortcuts, input checks and the generation guard (`static_app.dfy`).
- The service worker's routing, cache rules and cache clean-up (`service_worker.dfy`).
- The Flask backend's request validation (`backend.dfy`).
- String helpers with JavaScript's meaning of whitespace, `trim`, `split(/\s+/)` and `join` (`text.dfy`).

Things the programs get from outside are parameters of the model:

- the browser's voice list;
- the network's answers, as a function from request to outcome;
- the values of the inputs;
- parsed JSON.

Speech-engine events and timer ticks are methods of the reader class. React handlers see the state of the render that created them, and the model makes this explicit. A `Reader.Snapshot` is that render's view, and `speak` runs on the snapshot it closed over.

`src/store/useAppStore.ts` declares no `ttsEngine` or `huggingFaceApiKey` field, but `src/components/TTSEngineSelection.tsx` and `src/App.tsx` read and set both. The model adds them to the state with the same one-field setters:

- the engine starts absent, because the missing field reads as `undefined`;
- the key starts as `''`.

As written, the store's `setTTSEngine` and `setHuggingFaceApiKey` are `undefined`, so the engine picker's calls to them (src/components/TTSEngineSelection.tsx:44, 49-50) would throw a `TypeError`. The model completes the store as evidently intended, so those calls set the fields.

## Model

| member | source | states |
|---|---|---|
| Store.AppStore.constructor | src/store/useAppStore.ts:52-96 | initial state: url mode, empty url and content, no file, voice, utterance or error, no voices, stream mode, not playing or loading, reader hidden, word 0 |
| Store.AppStore.SetInputMode | src/store/useAppStore.ts:55 | replaces `inputMode` and leaves every other field unchanged |
| Store.AppStore.SetUrl | src/store/useAppStore.ts:59 | replaces `url` only |
| Store.AppStore.SetSelectedFile | src/store/useAppStore.ts:63 | replaces `selectedFile` only |
| Store.AppStore.SetExtractedContent | src/store/useAppStore.ts:67 | replaces `extractedContent` only |
| Store.AppStore.SetSelectedVoice | src/store/useAppStore.ts:71 | replaces `selectedVoice` only |
| Store.AppStore.SetAvailableVoices | src/store/useAppStore.ts:73 | replaces `availableVoices` only |
| Store.AppStore.SetProcessMode | src/store/useAppStore.ts:77 | replaces `processMode` only |
| Store.AppStore.SetIsPlaying | src/store/useAppStore.ts:81 | replaces `isPlaying` only |
| Store.AppStore.SetCurrentUtterance | src/store/useAppStore.ts:83 | replaces `currentUtterance` only |
| Store.AppStore.SetIsLoading | src/store/useAppStore.ts:87 | replaces `isLoading` only |
| Store.AppStore.SetError | src/store/useAppStore.ts:89 | replaces `error` only |
| Store.AppStore.SetShowReaderView | src/store/useAppStore.ts:93 | replaces `showReaderView` only |
| Store.AppStore.SetCurrentWordIndex | src/store/useAppStore.ts:95 | stores any integer unchecked, with no clamping, and nothing else |
| Store.AppStore.SetTtsEngine | src/components/TTSEngineSelection.tsx:26-31 | replaces the engine only |
| Store.AppStore.SetHuggingFaceApiKey | src/components/TTSEngineSelection.tsx:26-31 | replaces the API key only |
| Text.Trim | src/App.tsx:26 | the result has no whitespace at either end, and is empty exactly when the text is all whitespace |
| Reader.CollapseNewlines | src/components/ReaderView.tsx:26 | no line feed survives the replacement |
| Reader.DropNewlines | src/components/ReaderView.tsx:26 | the dropped prefix is all line feeds and the rest is a suffix of the input not starting with one |
| Reader.CollapseNewlinesChars | src/components/ReaderView.tsx:26 | collapsing line feeds keeps every non-whitespace character, in order |
| Reader.CollapseNewlinesNone | src/components/ReaderView.tsx:26 | text without line feeds is unchanged |
| Reader.TokenizeWords | src/components/ReaderView.tsx:25-28 | tokens are non-empty, hold no whitespace, and concatenate to the text's non-whitespace characters in order |
| Reader.TokenizeJoin | src/components/ReaderView.tsx:25-28 | joining a word list with spaces and tokenizing gives the list back |
| Reader.TokenizeIdempotent | src/components/ReaderView.tsx:25-28 | re-tokenizing the space-join of the tokens gives the same tokens |
| Reader.SliceStart | src/components/ReaderView.tsx:39 | `slice(start)` begins at `start` within the list, at the end past it, and counts from the end for a negative start |
| Reader.SpokenTextWords | src/components/ReaderView.tsx:39 | the spoken text holds exactly the words from the current index onwards |
| Reader.SkipBackIndex | src/components/ReaderView.tsx:92 | twenty words back, or 0 when fewer than twenty precede |
| Reader.SkipForwardIndex | src/components/ReaderView.tsx:101 | twenty words on, clamped to the last index, which is -1 for an empty list |
| Reader.SkipStaysInList | src/components/ReaderView.tsx:91-107 | in a non-empty list, from a word, a skip lands on a word at most twenty away in its direction |
| Reader.SkipRoundTrip | src/components/ReaderView.tsx:91-107 | back then forward returns to the same word when neither skip is clamped, and the same for forward then back |
| Reader.ClassifyWordCases | src/components/ReaderView.tsx:115-116 | current iff at the index while playing; read iff before the index; otherwise unread |
| Reader.Highlight | src/components/ReaderView.tsx:114-116 | one state per word, each as classified, with at most one word current |
| Reader.TrackerTick | src/components/ReaderView.tsx:64-72 | a tick adds exactly one while running, playing and below the word count; otherwise it clears the interval; the counter stays between its start and the word count |
| Reader.TrackerTicksCount | src/components/ReaderView.tsx:63-72 | after n ticks a moving tracker has counted min(n, words left) words and is still running only if n more fit |
| Reader.TrackerOf | src/components/ReaderView.tsx:63 | a new tracker runs and starts counting at the snapshot's index |
| Reader.RespeakSnapshot | src/components/ReaderView.tsx:91-107 | the re-speak after a skip uses the same words and voice at the new index |
| Reader.RespeakAsWrittenIgnoresSkip | src/components/ReaderView.tsx:91-107 | as written, for every render and skip target the re-speak says the words from the index before the skip and restarts the tracker there, so for a different target it does not say the words from the target |
| Reader.RespeakAsWrittenExample | src/components/ReaderView.tsx:91-98 | as written, skipping back from word 25 of 30 targets word 5, but the re-speak starts at word 25 again |
| Reader.RespeakResumesAtSkip | src/components/ReaderView.tsx:91-107 | with the corrected snapshot the re-speak says exactly the words from the skip target, and its tracker starts there |
| Reader.ReaderView.constructor | src/components/ReaderView.tsx:18 | the reader starts with no words, trackers, utterance or scheduled call |
| Reader.ReaderView.SyncContent | src/components/ReaderView.tsx:23-31 | non-empty content is re-tokenized into a word list; empty content leaves the words as they were |
| Reader.ReaderView.SpeakWith | src/components/ReaderView.tsx:33-83 | without a voice or words nothing changes; otherwise the engine gets the words from the snapshot's index, one tracker is added, and the store records the utterance |
| Reader.ReaderView.Speak | src/components/ReaderView.tsx:33-83 | `speak` of the current render, with the same outcomes |
| Reader.ReaderView.OnStart | src/components/ReaderView.tsx:47-49 | the store becomes playing, and nothing else changes |
| Reader.ReaderView.OnEnd | src/components/ReaderView.tsx:74-79 | clears the utterance's tracker, stops playing, drops the utterance and resets the index to 0 |
| Reader.ReaderView.OnError | src/components/ReaderView.tsx:57-60 | stops playing and drops the utterance, keeping the index and the tracker |
| Reader.ReaderView.Tick | src/components/ReaderView.tsx:64-72 | the tracker steps the index to its counter plus one, or clears itself and changes no state; the index never passes the word count |
| Reader.ReaderView.Pause | src/components/ReaderView.tsx:85-89 | stops playing and drops the utterance, keeping the index and the trackers |
| Reader.ReaderView.PlayButton | src/components/ReaderView.tsx:215-216 | disabled without words; pauses while playing; otherwise without a voice nothing changes, and with one it speaks from the current word with a new tracker whose captured flag is not playing, which the utterance owns |
| Reader.ReaderView.SkipTo | src/components/ReaderView.tsx:91-107 | stores the new index; only while playing does it pause and schedule one re-speak, the corrected one at the new index |
| Reader.ReaderView.SkipBack | src/components/ReaderView.tsx:91-98 | the index becomes max(0, i-20); when not playing nothing else changes; when playing it pauses (not playing, no utterance) and queues the corrected re-speak of the same words and voice at that index after the calls already queued |
| Reader.ReaderView.SkipForward | src/components/ReaderView.tsx:100-107 | the index becomes min(len-1, i+20); when not playing nothing else changes; when playing it pauses (not playing, no utterance) and queues the corrected re-speak of the same words and voice at that index after the calls already queued |
| Reader.ReaderView.FireScheduled | src/components/ReaderView.tsx:96 | the oldest scheduled call runs `speak` on its snapshot and leaves the queue |
| Reader.ReaderView.Close | src/components/ReaderView.tsx:145 | hides the reader and changes nothing else |
| HuggingFace.OrString | src/services/huggingface.ts:33-34 | `x \|\| fallback`: an absent or empty string falls back |
| HuggingFace.OrReal | src/services/huggingface.ts:55-56 | `x \|\| fallback`: an absent or zero number falls back |
| HuggingFace.NewService | src/services/huggingface.ts:32-35 | a falsy key becomes '' and a falsy model 'hexgrad/Kokoro-82M'; given values are kept |
| HuggingFace.RequestFor | src/services/huggingface.ts:41-59 | no request without a key; otherwise it posts to the model's URL with the bearer key and the text as input |
| HuggingFace.RequestDefaults | src/services/huggingface.ts:54-56 | a falsy voice, speed or pitch becomes 'default', 1.0 or 1.0, a truthy one is sent as given, so the sent values are never falsy |
| HuggingFace.WordCount | src/services/huggingface.ts:70 | the piece count of a whitespace split is at least one, even for empty text |
| HuggingFace.EstimatedDuration | src/services/huggingface.ts:70-71 | words/150*60 seconds, in exact arithmetic 0.4 seconds a word |
| HuggingFace.GenerateAudio | src/services/huggingface.ts:40-78 | no key gives the key-required error; a rejected fetch rethrows; non-OK gives the API error; OK gives the body and the estimated duration |
| HuggingFace.NoKeyNoRequest | src/services/huggingface.ts:41-43 | without a key the result does not depend on the network and is a failure |
| HuggingFace.ApiErrorMessageCarries | src/services/huggingface.ts:61-64 | the error message starts with the prefix, carries the status in digits that read back to it, and ends with the body |
| HuggingFace.KokoroVoices | src/services/huggingface.ts:83-91 | four voices with distinct ids, all en-US |
| HuggingFace.TestConnection | src/services/huggingface.ts:96-108 | true exactly when a key is set and the test request got an answer with an OK status |
| HuggingFace.PlainRun | src/services/huggingface.ts:120 | the run `[^.!?]+` stops at a terminator or the end |
| HuggingFace.TermRun | src/services/huggingface.ts:120 | the run `[.!?]+` stops at a non-terminator or the end |
| HuggingFace.MatchesAreSentences | src/services/huggingface.ts:120 | every regex match is non-terminators followed by terminators, at least one of each |
| HuggingFace.MatchCovers | src/services/huggingface.ts:120 | the text is its leading terminators, then the matches in order, then the unmatched tail |
| HuggingFace.UnmatchedPlain | src/services/huggingface.ts:120 | the unmatched tail holds no terminator: text after the last terminator belongs to no sentence |
| HuggingFace.Sentences | src/services/huggingface.ts:120 | the matches, or the whole text as one sentence when nothing matches |
| HuggingFace.PartitionFlatten | src/services/huggingface.ts:123-131 | the untrimmed chunks concatenate back to the sentence list |
| HuggingFace.PartitionBounds | src/services/huggingface.ts:123-131 | a chunk longer than 1000 characters is a single sentence, and a chunk is closed only when the next sentence did not fit |
| HuggingFace.TextPartitionBounds | src/services/huggingface.ts:120-131 | for every text, a chunk longer than 1000 characters is a single sentence and a chunk is closed only when the next sentence did not fit; only the empty text leaves an open chunk with no text |
| HuggingFace.ChunksTrimmedNonEmpty | src/services/huggingface.ts:123-134 | no chunk of any text is empty, and every chunk is already trimmed |
| HuggingFace.ChunkTextsTrimmed | src/services/huggingface.ts:126-134 | emitted chunks are trimmed and non-empty when the closed groups are not blank |
| HuggingFace.SplitIntoChunks | src/services/huggingface.ts:119-134 | the loop yields the chunks of the sentence partition, whose properties are the lemmas above |
| HuggingFace.GenerateChunks | src/services/huggingface.ts:136-155 | requests run in chunk order and the run is what `RunReports` describes: every result, with result i chunk i's answer, when no request or callback threw; otherwise the first chunk whose request failed, or whose `onChunkReady` threw after its request succeeded, with that error and every earlier chunk passed; the callback is handed 0, 1, … in order |
| HuggingFace.GenerateAudioWithChunks | src/services/huggingface.ts:113-156 | the chunks are those of the sentence partition, and the run over them, with chunk i's request being `generateAudio` on chunk i's text, is what `RunReports` describes |
| HuggingFace.RunReportsUnique | src/services/huggingface.ts:138-155 | the requests and the callback determine the run and the callback indices: the loop ends at the first request or callback that throws, and only there |
| HuggingFace.CallbackThrowStops | src/services/huggingface.ts:139-152 | a callback that throws on chunk 0's result ends the run with its error after that one successful request, having been handed index 0 only |
| VoiceSelection.FirstEnglish | src/components/VoiceSelection.tsx:21 | the first voice whose language starts with 'en', or none when no voice does |
| VoiceSelection.DefaultVoiceChoice | src/components/VoiceSelection.tsx:20-22 | the default is one of the voices: the first English one, else the first voice |
| VoiceSelection.LoadVoices | src/components/VoiceSelection.tsx:15-25 | an empty report changes nothing; otherwise the list is stored, and a voice is chosen only when none is selected |
| VoiceSelection.VoiceDisplayName | src/components/VoiceSelection.tsx:52-57 | the label is never empty |
| VoiceSelection.VoiceDisplayNameCases | src/components/VoiceSelection.tsx:52-57 | name and '(lang)' joined by a space, omitting empty parts; 'Unknown Voice' when both are empty |
| VoiceSelection.BeforeFirst | src/components/VoiceSelection.tsx:60 | `split(sep)[0]` is a prefix without the separator, which ends where the separator is |
| VoiceSelection.VoiceFlag | src/components/VoiceSelection.tsx:59-76 | the table's flag for the lower-cased code, else the globe |
| VoiceSelection.VoiceFlagIgnoresRegion | src/components/VoiceSelection.tsx:60 | whatever follows the first '-' does not change the flag |
| VoiceSelection.LangCodeIgnoresRegion | src/components/VoiceSelection.tsx:60 | the code is the same with or without a region suffix |
| VoiceSelection.VoiceFlagIgnoresCase | src/components/VoiceSelection.tsx:60 | letter case does not change the flag |
| EngineSelection.SelectedEngineShown | src/components/TTSEngineSelection.tsx:36 | a stored engine is shown as itself; none shows the first entry; only Hugging Face needs a key |
| EngineSelection.SaveEnabledNonEmpty | src/components/TTSEngineSelection.tsx:241 | save is enabled exactly for a key that is not all whitespace, and such a key is non-empty |
| EngineSelection.EngineSelectionView.constructor | src/components/TTSEngineSelection.tsx:33-34 | the dialog starts closed, holding the stored key |
| EngineSelection.EngineSelectionView.HandleEngineChange | src/components/TTSEngineSelection.tsx:38-45 | Hugging Face without a key opens an empty dialog and keeps the engine; any other choice switches engine; a stored key whenever Hugging Face is the engine is preserved |
| EngineSelection.EngineSelectionView.SaveApiKey | src/components/TTSEngineSelection.tsx:47-51 | stores the typed key untrimmed, selects Hugging Face and closes the dialog, after which a key is stored for the engine |
| EngineSelection.EngineSelectionView.CloseDialog | src/components/TTSEngineSelection.tsx:248 | only the dialog closes; the engine and the key are unchanged |
| EngineSelection.EngineSelectionView.OpenConfig | src/components/TTSEngineSelection.tsx:59-64 | the dialog opens holding the stored key |
| EngineSelection.EngineSelectionView.EditTempKey | src/components/TTSEngineSelection.tsx:216 | typing replaces the dialog's key only |
| App.PressStart | src/App.tsx:25-37 | the handler up to the `await`: blank content is ignored, stream mode opens the reader, an unconfigured engine gives the notice, and otherwise the request for the whole content is left pending, all as `BeginStartReading` gives |
| App.FinishStartReading | src/App.tsx:35-63 | once the request settles, a success downloads and a failure writes its message into the store as it is at that moment, as `AfterGeneration` gives |
| App.HandleStartReading | src/App.tsx:25-65 | one press with nothing else happening during the request: the store ends in the state, and the call has the outcome, that `StartReading` gives |
| App.PressWhileAwaitingRequestsAgain | src/App.tsx:30-37 | in generate mode with a configured engine, key and voice, a press leaves the request for the whole content pending and the store unchanged; nothing marks a generation as under way, so a second press during the request leaves the store alone and sends the same request again |
| App.BlankContentIgnored | src/App.tsx:26-28 | blank content does nothing in either mode |
| App.StreamOpensReader | src/App.tsx:26-27 | stream mode with non-blank content opens the reader and changes nothing else |
| App.StartReadingFrame | src/App.tsx:25-65 | the handler changes at most `showReaderView` (to true, in stream mode) and `error` (to the failure's message) |
| App.NetworkOnlyWhenConfigured | src/App.tsx:30 | without generate mode and a configured engine, key and voice the network's answers make no difference |
| App.RemoteOnlyWhenConfigured | src/App.tsx:28-38 | a download or a failure happens only in generate mode with Hugging Face, a key and a voice, and a key is then always sent |
| App.FailureMessage | src/App.tsx:61-63 | the error becomes the thrown error's message, 'Audio generation failed' for a non-Error, or the API error for a non-OK answer |
| App.PreviewShape | src/App.tsx:121-122 | short content is shown whole; longer content shows its first 500 characters and '...' |
| App.ReadMinutesCeil | src/App.tsx:136 | the least whole number of minutes covering the word count at 200 a minute, and at least one |
| StaticApp.IndexOf | static/js/app.js:507 | the first position of the tab, or -1 when absent |
| StaticApp.NavigateCycles | static/js/app.js:505-511 | one step lands on a tab; -1 wraps to the last and past the last wraps to 0; back undoes forward; three steps come round |
| StaticApp.KeyActionOf | static/js/app.js:488-500 | navigation moves by exactly one tab either way |
| StaticApp.KeyActionCases | static/js/app.js:490-498 | Ctrl or Cmd with Enter generates; Alt+ArrowRight moves +1 and Alt+ArrowLeft moves -1 |
| StaticApp.InputContentPresent | static/js/app.js:216-233 | content exists exactly when the open tab's input is non-blank or holds a file; an unknown tab has none |
| StaticApp.InputContentShape | static/js/app.js:216-233 | the content is of the open tab's kind: the trimmed url or text, or the file |
| StaticApp.FileSizeBoundary | static/js/app.js:400-404 | exactly 10 MiB is accepted and one byte more is rejected |
| StaticApp.TextValidityReports | static/js/app.js:470-483 | the message is empty iff the text fits in 10000 characters, and otherwise reports the excess, readable back from its digits |
| StaticApp.UnitIndex | static/js/app.js:428-439 | the largest unit up to GB of which the size holds at least one |
| StaticApp.FormatFileSize | static/js/app.js:428-439 | the loop ends at that unit with a size that times 1024^unit is the byte count |
| StaticApp.Web2Speech.constructor | static/js/app.js:7-13 | the page opens on the url tab, idle, with no audio |
| StaticApp.Web2Speech.HandleTabClick | static/js/app.js:71-103 | the clicked tab becomes the open one (a no-op when it already is), nothing else changes |
| StaticApp.Web2Speech.NavigateTabs | static/js/app.js:505-517 | the open tab moves one step cyclically |
| StaticApp.Web2Speech.StartGenerate | static/js/app.js:180-193 | while a request is in flight nothing happens; without content nothing starts; otherwise the page becomes busy with that content |
| StaticApp.Web2Speech.FinishGenerate | static/js/app.js:196-210 | the page is idle again after every run, and new audio replaces the current audio |
| StaticApp.Web2Speech.HandleKeyboard | static/js/app.js:488-500 | a generate shortcut runs the guarded start: busy while processing, else started with the open tab's content or, without content, not started; an arrow shortcut moves one tab; any other key changes nothing |
| ServiceWorker.RouteCases | service-worker.js:80-91 | non-GET and extension requests are not intercepted; every other request goes to exactly one handler, static before API before page |
| ServiceWorker.StaticTakesPrecedence | service-worker.js:85-105 | paths under '/static/' and scripts under '/api/' route as static assets |
| ServiceWorker.ApiScriptRoutesStatic | service-worker.js:85-91 | '/api/x.js' routes as a static asset |
| ServiceWorker.Match | service-worker.js:120 | a lookup finds a response exactly when some cache holds the key |
| ServiceWorker.MatchPutStored | service-worker.js:128-129 | a stored response, new or overwriting, is then found by its key unless a cache ahead of the one written holds the key |
| ServiceWorker.MissNotShadowed | service-worker.js:128-129 | a key no cache holds is shadowed by none, so a first store of it is always found |
| ServiceWorker.MatchPutOther | service-worker.js:128-129 | storing one key leaves every other key's lookup unchanged |
| ServiceWorker.PutNames | service-worker.js:128 | opening a cache adds one at the end only when none has the name |
| ServiceWorker.PutDistinct | service-worker.js:128 | storing keeps cache names distinct |
| ServiceWorker.Kept | service-worker.js:54-57 | activation keeps at most the caches there were |
| ServiceWorker.KeptExactly | service-worker.js:54-57 | activation deletes exactly the 'web2speech-' caches other than the current two |
| ServiceWorker.CurrentCachesSurvive | service-worker.js:56 | the current caches and every foreign cache survive |
| ServiceWorker.KeptDistinct | service-worker.js:54-57 | deleting caches keeps the names distinct |
| ServiceWorker.CacheStorage.constructor | service-worker.js:48-70 | Cache Storage starts with the given caches, names distinct |
| ServiceWorker.CacheStorage.Activate | service-worker.js:48-70 | the caches become the kept ones, names still distinct |
| ServiceWorker.CacheStorage.HandleStaticAsset | service-worker.js:118-148 | a cached answer is returned without using the network; only an OK network answer is stored, in the static cache; a failed fetch with nothing cached gets 503 |
| ServiceWorker.CacheStorage.HandleApiCall | service-worker.js:153-184 | the network answer is returned and stored in the dynamic cache when OK; a failed fetch is answered from the caches, else with 503 |
| ServiceWorker.CacheStorage.HandlePageRequest | service-worker.js:189-301 | the main page comes from the cached root; other pages come from the network, with OK answers stored; a failure falls back to the cached page, the cached root for navigations, then the offline page |
| ServiceWorker.CacheStorage.HandleFetch | service-worker.js:75-92 | unrouted requests get no answer; each route gets its handler's answer and store: assets cache-first with OK answers stored in the static cache, API calls network-first with OK answers stored in the dynamic cache, pages from the cached root for the main page, else the network with OK answers stored in the dynamic cache, else the page fallback (the main page's background refresh is outside the model) |
| ServiceWorker.PageFallback | service-worker.js:214-300 | what a page request gets when the network fails, in fallback order |
| Backend.GenerateSpeechStatus | app.py:114-148 | a job starts, with status 200, exactly for an object body with truthy content |
| Backend.GenerateSpeechRejections | app.py:118-129 | 400 for a falsy body or falsy content; 500 for an unreadable or non-object body; no other status |
| Backend.GenerateSpeechDefaults | app.py:125-126 | the voice defaults to DEFAULT_VOICE and the speed to 1.0 only when absent |
| Backend.JobReplyNamesSession | app.py:137-144 | the job reply names the session, and its polling URL ends with the session id |
| Backend.ExtractUpload | app.py:170-191 | an upload is accepted exactly when it has a file whose name ends in '.pdf' in any case; otherwise 400 |
| Backend.UpperCasePdfAccepted | app.py:179 | 'A.PDF' is accepted |
| Backend.ExtractJson | app.py:193-216 | a JSON request is accepted exactly for an object with a truthy url; 400 for a falsy body or a missing url |
| Backend.ExtractWithoutContentType | app.py:168-170 | a request without a content type is answered 500 |
| Backend.NotFoundRouting | app.py:223-230 | API paths get a JSON 404; every other path is served the main page |

## Left out

- Speech rate, pitch and volume, and every timer duration: the per-word interval, the 100 ms re-speak delay and the cleanup timeouts. A tick or a scheduled call is one abstract step.
- `speechSynthesis.cancel`: modelled as dropping the current utterance without delivering its end or error event. Browsers differ here.
- Progress percentages and `toFixed` formatting. `StaticApp.FormatFileSize` returns the scaled size and the unit, not the one-decimal text.
- `static/js/app.js:processContent`, the simulated request, is a parameter of `FinishGenerate`. `displayAudio` only stores the audio, and toasts and other DOM updates are not modelled.
- HuggingFace.EstimatedDuration: durations, speeds and pitches are exact reals. The source's double-precision rounding is not modelled: `(7/150)*60` is 2.8000000000000003 in the source and 2.8 here. NaN, which `||` treats as falsy, is not representable, so `HuggingFace.OrReal` covers every other number only.
- Reader.ReaderView.SkipTo, Reader.ReaderView.SkipBack, Reader.ReaderView.SkipForward: the class queues the corrected re-speak at the skip target (`Reader.RespeakSnapshot`). The source's `setTimeout(speak, 100)` runs the `speak` of the render that handled the click, which re-speaks from the index before the skip. That behaviour is stated on its own by `Reader.RespeakAsWrittenIgnoresSkip` (see Findings).
- Character positions: lengths and slices count Dafny characters, not UTF-16 code units. Texts outside the Basic Multilingual Plane would have other lengths in JavaScript.
- VoiceSelection.VoiceFlag: lower-cases ASCII letters only. The table's other keys inherited from `Object.prototype`, such as 'constructor', are not modelled; they would yield a function rather than the globe.
- Backend.ExtractUpload: lower-cases ASCII letters only, as `str.lower` does for the ASCII file names modelled.
- Mock reply bodies are abbreviated to the fields the lemmas mention: `extracted_text`, `title`, `language`, `author` and `publish_date` are omitted. `estimated_duration` is a real number.
- `request.get_json()` is a parameter, `JsonRead`: a parsed value or a raised error. Flask startup, logging, CORS, uuid generation (the session id is a parameter), `index()` file serving (its text is a parameter) and the 413 handler are left out.
- `URL.createObjectURL` and `revokeObjectURL`, the download link and the blob. The audio is the response body.
- `testVoice` in the voice picker: it only hands a fixed sentence to the browser engine.
- The service worker's install, push, sync, message and notification handlers.
- ServiceWorker.CacheStorage.HandlePageRequest, ServiceWorker.CacheStorage.HandleFetch: the main page's background refresh is not modelled. After a cached root has been returned, an OK answer to a second fetch of '/' is later stored under '/' in the static cache (service-worker.js:196-200). The answer is not changed, but the caches are, on a page route and after the handler returns.
- ServiceWorker.CacheStorage.HandleStaticAsset: the failure path's second cache lookup is not modelled as its own step; the model answers 503 when the first lookup missed. Within one fetch event nothing stores between the two lookups. An un-awaited `cache.put` of another, concurrent request can land during the `await fetch`, and the source would then answer from it. Concurrent fetch events are not modelled.
- App.PressStart, App.FinishStartReading: the handler reads the values of the render that handled the click. The model reads the store at the press, so a store update that has not re-rendered yet is not modelled. Anything may change the store between the two halves, and the handler has no guard against a second press (`App.PressWhileAwaitingRequestsAgain`). The order in which two overlapping requests settle is up to the network.
- `src/components/UrlInput.tsx`, `src/components/FileUpload.tsx` and the presentation components. Extraction there is simulated with timers.
- Hugging Face voice ids: the start button sends `selectedVoice.id`, which browser voices do not have. The request therefore always carries voice 'default' (`App.OptionsOf`).

## Findings

| source | as written | input that shows it | evidently intended | confidence | as-written member | corrected member |
|---|---|---|---|---|---|---|
| src/components/ReaderView.tsx:91-107 | while playing, a skip stores the new index and then schedules the `speak` of the render that handled the click, which still holds the old index | 30 words, playing at word 25, skip back: the index becomes 5, but the re-speak speaks words 25 onwards and its tracker restarts at 25 | the re-speak resumes at the skip target | not executed | Reader.RespeakAsWrittenIgnoresSkip, Reader.RespeakAsWrittenExample | Reader.RespeakResumesAtSkip |
