/**
 * The server-rendered page's script (static/js/app.js): a `Web2Speech`
 * object that tracks the open input tab, guards speech generation against
 * re-entry while a request is in flight, and keeps the last generated audio;
 * plus the tab cycling, keyboard shortcuts, file-size and text-length checks
 * and the file-size label it uses.
 */
module StaticApp {
  import opened Wrappers
  import opened Text

  /** The tab identifiers, in the order the arrow keys cycle through them. */
  const Tabs: seq<string> := ["url", "pdf", "text"]

  /** `Array.prototype.indexOf`: the first position of `x`, or -1. */
  function IndexOf(xs: seq<string>, x: string): (r: int)
    ensures -1 <= r < |xs|
    ensures r == -1 <==> x !in xs
    ensures r >= 0 ==> xs[r] == x && forall j :: 0 <= j < r ==> xs[j] != x
  {
    if xs == [] then -1
    else if xs[0] == x then 0
    else
      var i := IndexOf(xs[1..], x);
      if i == -1 then -1 else i + 1
  }

  /** The index `navigateTabs` moves to: one step in `direction`, wrapping
      below 0 to the last tab and past the last tab to the first. */
  function NavigateIndex(current: int, direction: int): int {
    var n := current + direction;
    var n := if n < 0 then |Tabs| - 1 else n;
    if n >= |Tabs| then 0 else n
  }

  /** From any tab (or from no known tab, index -1) one step lands on a tab;
      the steps wrap around at both ends, a step back undoes a step forward,
      and three steps forward come back to the start. */
  lemma NavigateCycles(i: int)
    requires -1 <= i < |Tabs|
    ensures 0 <= NavigateIndex(i, 1) < |Tabs| && 0 <= NavigateIndex(i, -1) < |Tabs|
    ensures i == |Tabs| - 1 ==> NavigateIndex(i, 1) == 0
    ensures i == 0 ==> NavigateIndex(i, -1) == |Tabs| - 1
    ensures i >= 0 ==> NavigateIndex(NavigateIndex(i, 1), -1) == i && NavigateIndex(NavigateIndex(i, -1), 1) == i
    ensures i >= 0 ==> NavigateIndex(NavigateIndex(NavigateIndex(i, 1), 1), 1) == i
    ensures i == -1 ==> NavigateIndex(i, 1) == 0 && NavigateIndex(i, -1) == |Tabs| - 1
  {
  }

  /** The key presses the page reacts to. */
  datatype KeyEvent = KeyEvent(key: string, ctrlKey: bool, metaKey: bool, altKey: bool)

  datatype KeyAction = GenerateKey | NavigateKey(direction: int) | NoKeyAction

  /** `handleKeyboard`'s dispatch: Ctrl or Cmd with Enter generates; Alt with
      a horizontal arrow moves one tab in the arrow's direction. */
  function KeyActionOf(e: KeyEvent): (a: KeyAction)
    ensures a.NavigateKey? ==> a.direction == 1 || a.direction == -1
  {
    if (e.ctrlKey || e.metaKey) && e.key == "Enter" then GenerateKey
    else if e.altKey && (e.key == "ArrowLeft" || e.key == "ArrowRight") then
      NavigateKey(if e.key == "ArrowRight" then 1 else -1)
    else NoKeyAction
  }

  lemma KeyActionCases(e: KeyEvent)
    ensures KeyActionOf(e) == GenerateKey <==> (e.ctrlKey || e.metaKey) && e.key == "Enter"
    ensures KeyActionOf(e) == NavigateKey(1) <==> e.altKey && e.key == "ArrowRight"
    ensures KeyActionOf(e) == NavigateKey(-1) <==> e.altKey && e.key == "ArrowLeft"
  {
  }

  /** A file chosen in the PDF input: its name and byte size. */
  datatype FileInfo = FileInfo(name: string, size: nat)

  /** The values of the three inputs at the moment of reading them. */
  datatype Inputs = Inputs(urlValue: string, file: Option<FileInfo>, textValue: string)

  datatype InputContent = UrlContent(url: string) | PdfContent(file: FileInfo) | TextContent(text: string)

  /** `getInputContent`: the trimmed url or text of the open tab, or its file;
      nothing when that is empty or missing, or the tab is unknown. */
  function InputContentOf(tab: string, inputs: Inputs): Option<InputContent> {
    if tab == "url" then
      var url := Trim(inputs.urlValue);
      if url != "" then Some(UrlContent(url)) else None
    else if tab == "pdf" then
      if inputs.file.Some? then Some(PdfContent(inputs.file.value)) else None
    else if tab == "text" then
      var text := Trim(inputs.textValue);
      if text != "" then Some(TextContent(text)) else None
    else None
  }

  /** Content exists exactly when the open tab's input is non-blank or holds a
      file; an unknown tab never has content. */
  lemma InputContentPresent(tab: string, inputs: Inputs)
    ensures InputContentOf(tab, inputs).Some? <==>
      || (tab == "url" && !AllSpace(inputs.urlValue))
      || (tab == "pdf" && inputs.file.Some?)
      || (tab == "text" && !AllSpace(inputs.textValue))
    ensures tab !in Tabs ==> InputContentOf(tab, inputs) == None
  {
  }

  /** What comes back is of the open tab's kind: the trimmed url or text, or the file. */
  lemma InputContentShape(tab: string, inputs: Inputs)
    ensures var c := InputContentOf(tab, inputs);
      && (c.Some? && c.value.UrlContent? ==> tab == "url" && c.value.url == Trim(inputs.urlValue))
      && (c.Some? && c.value.TextContent? ==> tab == "text" && c.value.text == Trim(inputs.textValue))
      && (c.Some? && c.value.PdfContent? ==> tab == "pdf" && inputs.file == Some(c.value.file))
  {
  }

  const MaxFileSize := 10 * 1024 * 1024

  /** `handleFileSelection`'s size check: at most 10 MiB. */
  predicate FileSizeAccepted(size: nat) {
    size <= MaxFileSize
  }

  lemma FileSizeBoundary()
    ensures FileSizeAccepted(10485760) && !FileSizeAccepted(10485761)
  {
  }

  const MaxTextLength := 10000

  /** The text input's validity message: empty while the text fits, otherwise
      the number of characters over the limit. */
  function TextValidity(text: string): string {
    var remaining := MaxTextLength - |text|;
    if remaining < 0 then "Text exceeds maximum length by " + IntToString(-remaining) + " characters" else ""
  }

  /** The message is empty exactly when the text fits, and otherwise reports
      the excess length, readable back from its digits. */
  lemma TextValidityReports(text: string)
    ensures TextValidity(text) == "" <==> |text| <= MaxTextLength
    ensures |text| > MaxTextLength ==>
      var digits := NatToString(|text| - MaxTextLength);
      && TextValidity(text) == "Text exceeds maximum length by " + digits + " characters"
      && DigitsValue(digits) == |text| - MaxTextLength
  {
    if |text| > MaxTextLength {
      NatToStringValue(|text| - MaxTextLength);
    }
  }

  const Units: seq<string> := ["B", "KB", "MB", "GB"]

  /** The number of bytes in one of the k-th unit, 1024^k. */
  function UnitBytes(k: nat): nat
    requires k < |Units|
  {
    if k == 0 then 1 else if k == 1 then 1024 else if k == 2 then 1048576 else 1073741824
  }

  /** `size` is `bytes` counted in units of 1024^k: size * 1024^k == bytes. */
  predicate ScaledBy(size: real, k: nat, bytes: nat)
    requires k < |Units|
  {
    size * (UnitBytes(k) as real) == bytes as real
  }

  /** The largest unit, up to gigabytes, of which the size holds at least one. */
  function UnitIndex(bytes: nat): (k: nat)
    ensures k < |Units|
    ensures k > 0 ==> bytes >= UnitBytes(k)
    ensures k < |Units| - 1 ==> bytes < UnitBytes(k + 1)
  {
    if bytes >= UnitBytes(3) then 3
    else if bytes >= UnitBytes(2) then 2
    else if bytes >= UnitBytes(1) then 1
    else 0
  }

  /** `formatFileSize` without the final one-decimal rendering: the size
      divided down by 1024 while it is at least 1024 and a larger unit
      remains, and the unit reached. */
  method FormatFileSize(bytes: nat) returns (size: real, unit: string)
    ensures unit == Units[UnitIndex(bytes)]
    ensures ScaledBy(size, UnitIndex(bytes), bytes)
  {
    size := bytes as real;
    var unitIndex: nat := 0;
    while size >= 1024.0 && unitIndex < |Units| - 1
      invariant unitIndex < |Units|
      invariant ScaledBy(size, unitIndex, bytes)
      invariant unitIndex > 0 ==> bytes >= UnitBytes(unitIndex)
      decreases |Units| - unitIndex
    {
      size := size / 1024.0;
      unitIndex := unitIndex + 1;
    }
    unit := Units[unitIndex];
  }

  /** What the generation endpoint hands back: where the audio is and how to name it. */
  datatype AudioData = AudioData(audioUrl: string, duration: nat, format: string, filename: string)

  /** How a press of the generate button ends its synchronous part. */
  datatype GenerateStart = Busy | NoContent | Started(content: InputContent)

  class Web2Speech {
    var currentTab: string
    var isProcessing: bool
    var currentAudioData: Option<AudioData>

    /** The page opens on the url tab, idle, with no audio. */
    constructor ()
      ensures currentTab == "url" && !isProcessing && currentAudioData == None
    {
      currentTab := "url";
      isProcessing := false;
      currentAudioData := None;
    }

    /** `handleTabClick`: clicking the open tab does nothing; any other tab becomes the open one. */
    method HandleTabClick(tabId: string)
      modifies this
      ensures currentTab == tabId
      ensures isProcessing == old(isProcessing) && currentAudioData == old(currentAudioData)
    {
      if tabId == currentTab {
        return;
      }
      currentTab := tabId;
    }

    /** `navigateTabs`: clicks the tab one step away in `direction`. */
    method NavigateTabs(direction: int)
      modifies this
      ensures 0 <= NavigateIndex(IndexOf(Tabs, old(currentTab)), direction) < |Tabs| ==>
        currentTab == Tabs[NavigateIndex(IndexOf(Tabs, old(currentTab)), direction)]
      ensures isProcessing == old(isProcessing) && currentAudioData == old(currentAudioData)
    {
      var newIndex := NavigateIndex(IndexOf(Tabs, currentTab), direction);
      if 0 <= newIndex < |Tabs| {
        HandleTabClick(Tabs[newIndex]);
      }
    }

    /** The synchronous part of `handleGenerate`: nothing happens while a
        request is in flight; without content nothing starts; otherwise the
        object is marked busy until `FinishGenerate`. */
    method StartGenerate(inputs: Inputs) returns (start: GenerateStart)
      modifies this
      ensures old(isProcessing) ==> start == Busy && isProcessing
      ensures !old(isProcessing) && InputContentOf(old(currentTab), inputs) == None ==>
        start == NoContent && !isProcessing
      ensures !old(isProcessing) && InputContentOf(old(currentTab), inputs).Some? ==>
        start == Started(InputContentOf(old(currentTab), inputs).value) && isProcessing
      ensures currentTab == old(currentTab) && currentAudioData == old(currentAudioData)
    {
      if isProcessing {
        return Busy;
      }
      var content := InputContentOf(currentTab, inputs);
      if content == None {
        return NoContent;
      }
      isProcessing := true;
      start := Started(content.value);
    }

    /** The part of `handleGenerate` after the request settles: audio, when
        there is some, becomes the current audio; in every case the object is
        idle again. */
    method FinishGenerate(result: Result<Option<AudioData>, string>)
      requires isProcessing
      modifies this
      ensures !isProcessing
      ensures currentAudioData == (if result.Success? && result.value.Some? then result.value else old(currentAudioData))
      ensures currentTab == old(currentTab)
    {
      if result.Success? && result.value.Some? {
        currentAudioData := result.value;
      }
      isProcessing := false;
    }

    /** `handleKeyboard`: generation on Ctrl/Cmd+Enter, tab navigation on Alt+arrow. */
    method HandleKeyboard(e: KeyEvent, inputs: Inputs) returns (start: Option<GenerateStart>)
      modifies this
      ensures KeyActionOf(e) == GenerateKey ==>
        && start.Some? && currentTab == old(currentTab)
        && (old(isProcessing) ==> start == Some(Busy) && isProcessing)
        && (!old(isProcessing) ==> isProcessing == InputContentOf(old(currentTab), inputs).Some?)
        && (!old(isProcessing) ==>
              start == Some(if InputContentOf(old(currentTab), inputs).Some?
                            then Started(InputContentOf(old(currentTab), inputs).value) else NoContent))
      ensures KeyActionOf(e).NavigateKey? ==>
        && start == None && isProcessing == old(isProcessing)
        && currentTab == Tabs[NavigateIndex(IndexOf(Tabs, old(currentTab)), KeyActionOf(e).direction)]
      ensures KeyActionOf(e) == NoKeyAction ==>
        && start == None && currentTab == old(currentTab) && isProcessing == old(isProcessing)
      ensures currentAudioData == old(currentAudioData)
    {
      match KeyActionOf(e)
      case GenerateKey =>
        var s := StartGenerate(inputs);
        start := Some(s);
      case NavigateKey(direction) =>
        NavigateCycles(IndexOf(Tabs, currentTab));
        NavigateTabs(direction);
        start := None;
      case NoKeyAction =>
        start := None;
    }
  }
}
