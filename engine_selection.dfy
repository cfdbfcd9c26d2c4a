/**
 * The engine picker (src/components/TTSEngineSelection.tsx): switching to the
 * Hugging Face engine is gated on an API key; without one the key dialog
 * opens instead, and saving the dialog stores the key and switches engine.
 */
module EngineSelection {
  import opened Wrappers
  import opened Text
  import opened Store

  datatype EngineInfo = EngineInfo(id: TtsEngine, name: string, quality: string, requiresApiKey: bool)

  /** The two engines, in listing order. */
  const Engines: seq<EngineInfo> := [
    EngineInfo(HuggingFace, "Hugging Face Kokoro-82M", "Premium", true),
    EngineInfo(WebSpeech, "Browser TTS", "Standard", false)]

  /** The listed entry whose id is the stored engine; the first entry when none matches. */
  function SelectedEngine(engine: Option<TtsEngine>): EngineInfo {
    if engine == Some(Engines[0].id) then Engines[0]
    else if engine == Some(Engines[1].id) then Engines[1]
    else Engines[0]
  }

  /** A stored engine is shown as itself; no stored engine shows the first entry. */
  lemma SelectedEngineShown(engine: Option<TtsEngine>)
    ensures SelectedEngine(engine) in Engines
    ensures engine.Some? ==> SelectedEngine(engine).id == engine.value
    ensures engine == None ==> SelectedEngine(engine) == Engines[0]
    ensures SelectedEngine(engine).requiresApiKey <==> SelectedEngine(engine).id == HuggingFace
  {
  }

  /** The save button is enabled only for a key that is not blank. */
  predicate SaveEnabled(tempKey: string) {
    Trim(tempKey) != ""
  }

  /** A key that can be saved is itself non-empty, although it is stored untrimmed. */
  lemma SaveEnabledNonEmpty(tempKey: string)
    ensures SaveEnabled(tempKey) ==> tempKey != ""
    ensures SaveEnabled(tempKey) <==> !AllSpace(tempKey)
  {
  }

  /** The engine is Hugging Face only when a key is stored. */
  predicate KeyedWhenHuggingFace(s: AppState) {
    s.ttsEngine == Some(HuggingFace) ==> s.huggingFaceApiKey != ""
  }

  class EngineSelectionView {
    const store: AppStore
    var showApiKeyDialog: bool
    var tempApiKey: string

    /** The dialog starts closed, its field holding the stored key. */
    constructor (store: AppStore)
      ensures this.store == store
      ensures !showApiKeyDialog && tempApiKey == store.state.huggingFaceApiKey
    {
      this.store := store;
      showApiKeyDialog := false;
      tempApiKey := store.state.huggingFaceApiKey;
    }

    /** `handleEngineChange`: choosing Hugging Face without a stored key opens an
        empty dialog and keeps the engine; any other choice switches engine. */
    method HandleEngineChange(engine: TtsEngine)
      modifies this, store
      ensures engine == HuggingFace && old(store.state.huggingFaceApiKey) == "" ==>
        store.state == old(store.state) && showApiKeyDialog && tempApiKey == ""
      ensures !(engine == HuggingFace && old(store.state.huggingFaceApiKey) == "") ==>
        store.state == old(store.state).(ttsEngine := Some(engine))
        && showApiKeyDialog == old(showApiKeyDialog) && tempApiKey == old(tempApiKey)
      ensures KeyedWhenHuggingFace(old(store.state)) ==> KeyedWhenHuggingFace(store.state)
    {
      if engine == HuggingFace && store.state.huggingFaceApiKey == "" {
        tempApiKey := "";
        showApiKeyDialog := true;
        return;
      }
      store.SetTtsEngine(engine);
    }

    /** `saveApiKey`, reachable only while the save button is enabled: the key is
        stored as typed, the engine becomes Hugging Face and the dialog closes. */
    method SaveApiKey()
      requires SaveEnabled(tempApiKey)
      modifies this, store
      ensures store.state == old(store.state).(huggingFaceApiKey := old(tempApiKey), ttsEngine := Some(HuggingFace))
      ensures !showApiKeyDialog && tempApiKey == old(tempApiKey)
      ensures KeyedWhenHuggingFace(store.state)
    {
      SaveEnabledNonEmpty(tempApiKey);
      store.SetHuggingFaceApiKey(tempApiKey);
      store.SetTtsEngine(HuggingFace);
      showApiKeyDialog := false;
    }

    /** The Cancel button and the dialog's close event: only the dialog closes. */
    method CloseDialog()
      modifies this
      ensures !showApiKeyDialog && tempApiKey == old(tempApiKey)
    {
      showApiKeyDialog := false;
    }

    /** The Config button, shown only while Hugging Face is the engine: the
        dialog opens holding the stored key. */
    method OpenConfig()
      requires store.state.ttsEngine == Some(HuggingFace)
      modifies this
      ensures showApiKeyDialog && tempApiKey == store.state.huggingFaceApiKey
    {
      tempApiKey := store.state.huggingFaceApiKey;
      showApiKeyDialog := true;
    }

    /** Typing into the key field. */
    method EditTempKey(key: string)
      modifies this
      ensures tempApiKey == key && showApiKeyDialog == old(showApiKeyDialog)
    {
      tempApiKey := key;
    }
  }
}
