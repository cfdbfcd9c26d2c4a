/**
 * The application's single global store (src/store/useAppStore.ts): one record
 * of UI and playback state and a setter per field that overwrites that field.
 * `ttsEngine` and `huggingFaceApiKey` are read by the engine selector and the
 * start button although the store declares neither; they are added here with
 * the same one-field setter pattern.
 */
module Store {
  import opened Wrappers

  datatype InputMode = UrlInput | FileInput
  datatype ProcessMode = Generate | Stream
  datatype TtsEngine = HuggingFace | WebSpeech

  /** A browser speech-synthesis voice: only its name and BCP 47 language tag matter here. */
  datatype Voice = Voice(name: string, lang: string)

  /** A browser `File`: only its name and byte size matter here. */
  datatype FileRef = FileRef(name: string, size: nat)

  /** An utterance handed to the speech engine: the text and the voice it speaks with. */
  datatype Utterance = Utterance(text: string, voice: Voice)

  datatype AppState = AppState(
    inputMode: InputMode,
    url: string,
    selectedFile: Option<FileRef>,
    extractedContent: string,
    selectedVoice: Option<Voice>,
    availableVoices: seq<Voice>,
    processMode: ProcessMode,
    isPlaying: bool,
    currentUtterance: Option<Utterance>,
    isLoading: bool,
    error: Option<string>,
    showReaderView: bool,
    currentWordIndex: int,
    ttsEngine: Option<TtsEngine>,
    huggingFaceApiKey: string)

  class AppStore {
    var state: AppState

    /** The values the store is created with. The two added fields start as the
        absent value they read as in the source: no engine, an empty key. */
    constructor ()
      ensures state.inputMode == UrlInput && state.url == "" && state.selectedFile == None
      ensures state.extractedContent == "" && state.selectedVoice == None && state.availableVoices == []
      ensures state.processMode == Stream && !state.isPlaying && state.currentUtterance == None
      ensures !state.isLoading && state.error == None && !state.showReaderView
      ensures state.currentWordIndex == 0
      ensures state.ttsEngine == None && state.huggingFaceApiKey == ""
    {
      state := AppState(UrlInput, "", None, "", None, [], Stream, false, None, false, None, false, 0, None, "");
    }

    method SetInputMode(mode: InputMode)
      modifies this
      ensures state == old(state).(inputMode := mode)
    {
      state := state.(inputMode := mode);
    }

    method SetUrl(url: string)
      modifies this
      ensures state == old(state).(url := url)
    {
      state := state.(url := url);
    }

    method SetSelectedFile(file: Option<FileRef>)
      modifies this
      ensures state == old(state).(selectedFile := file)
    {
      state := state.(selectedFile := file);
    }

    method SetExtractedContent(content: string)
      modifies this
      ensures state == old(state).(extractedContent := content)
    {
      state := state.(extractedContent := content);
    }

    method SetSelectedVoice(voice: Option<Voice>)
      modifies this
      ensures state == old(state).(selectedVoice := voice)
    {
      state := state.(selectedVoice := voice);
    }

    method SetAvailableVoices(voices: seq<Voice>)
      modifies this
      ensures state == old(state).(availableVoices := voices)
    {
      state := state.(availableVoices := voices);
    }

    method SetProcessMode(mode: ProcessMode)
      modifies this
      ensures state == old(state).(processMode := mode)
    {
      state := state.(processMode := mode);
    }

    method SetIsPlaying(playing: bool)
      modifies this
      ensures state == old(state).(isPlaying := playing)
    {
      state := state.(isPlaying := playing);
    }

    method SetCurrentUtterance(utterance: Option<Utterance>)
      modifies this
      ensures state == old(state).(currentUtterance := utterance)
    {
      state := state.(currentUtterance := utterance);
    }

    method SetIsLoading(loading: bool)
      modifies this
      ensures state == old(state).(isLoading := loading)
    {
      state := state.(isLoading := loading);
    }

    method SetError(error: Option<string>)
      modifies this
      ensures state == old(state).(error := error)
    {
      state := state.(error := error);
    }

    method SetShowReaderView(show: bool)
      modifies this
      ensures state == old(state).(showReaderView := show)
    {
      state := state.(showReaderView := show);
    }

    /** Stores the index as given: no clamping to the word list. */
    method SetCurrentWordIndex(index: int)
      modifies this
      ensures state == old(state).(currentWordIndex := index)
    {
      state := state.(currentWordIndex := index);
    }

    method SetTtsEngine(engine: TtsEngine)
      modifies this
      ensures state == old(state).(ttsEngine := Some(engine))
    {
      state := state.(ttsEngine := Some(engine));
    }

    method SetHuggingFaceApiKey(key: string)
      modifies this
      ensures state == old(state).(huggingFaceApiKey := key)
    {
      state := state.(huggingFaceApiKey := key);
    }
  }
}
