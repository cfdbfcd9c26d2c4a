/**
 * The reader view (src/components/ReaderView.tsx): it splits the extracted
 * text into words, speaks the words from the current index onwards through the
 * browser engine, advances the index with an interval timer, and lets the
 * user pause and skip by twenty words.
 *
 * React handlers see the values of the render that created them. A `Snapshot`
 * is such a render's view of the state; `speak` works on the snapshot it was
 * created with, which matters for the call that `skipBack`/`skipForward`
 * schedule with `setTimeout`.
 */
module Reader {
  import opened Wrappers
  import opened Text
  import opened Store

  function Max(a: int, b: int): int { if a < b then b else a }
  function Min(a: int, b: int): int { if a < b then a else b }

  // ---------------------------------------------------------------- tokenizer

  /** `.replace(/\n+/g, ' ')`: every maximal run of line feeds becomes one space. */
  function CollapseNewlines(s: string): (r: string)
    ensures '\n' !in r
    decreases |s|
  {
    if s == [] then []
    else if s[0] == '\n' then " " + CollapseNewlines(DropNewlines(s))
    else [s[0]] + CollapseNewlines(s[1..])
  }

  /** `s` without its leading line feeds. */
  function DropNewlines(s: string): (r: string)
    ensures |r| <= |s| && r == s[|s| - |r|..]
    ensures forall i :: 0 <= i < |s| - |r| ==> s[i] == '\n'
    ensures r == [] || r[0] != '\n'
  {
    if s != [] && s[0] == '\n' then
      var r := DropNewlines(s[1..]);
      assert s[1..][|s| - 1 - |r|..] == s[|s| - |r|..];
      assert forall i :: 0 <= i < |s| - |r| ==> s[i] == '\n' by {
        forall i | 0 < i < |s| - |r| ensures s[i] == '\n' {
          assert s[i] == s[1..][i - 1];
        }
      }
      r
    else s
  }

  /** The words of the extracted text, as the reader lists them. */
  function Tokenize(s: string): seq<string> {
    FilterNonEmpty(SplitWs(CollapseNewlines(s)))
  }

  /** What a list of words produced by the tokenizer looks like. */
  predicate IsWordList(ws: seq<string>) {
    forall i :: 0 <= i < |ws| ==> ws[i] != [] && SpaceFree(ws[i])
  }

  /** Collapsing line feeds keeps the non-whitespace characters. */
  lemma {:induction false} CollapseNewlinesChars(s: string)
    ensures NonSpaceChars(CollapseNewlines(s)) == NonSpaceChars(s)
    decreases |s|
  {
    if s == [] {
    } else if s[0] == '\n' {
      var t := DropNewlines(s);
      var k := |s| - |t|;
      SeqSplitAt(s, k);
      assert AllSpace(s[..k]) by {
        forall i | 0 <= i < k ensures IsSpace(s[..k][i]) {
          assert s[..k][i] == s[i] == '\n';
        }
      }
      NonSpaceCharsAppend(s[..k], t);
      NonSpaceCharsOfSpaces(s[..k]);
      CollapseNewlinesChars(t);
      NonSpaceCharsAppend(" ", CollapseNewlines(t));
      NonSpaceCharsOfSpaces(" ");
    } else {
      CollapseNewlinesChars(s[1..]);
      NonSpaceCharsAppend([s[0]], s[1..]);
      NonSpaceCharsAppend([s[0]], CollapseNewlines(s[1..]));
      SeqFirstRest(s);
    }
  }

  /** Text without line feeds is left as it is. */
  lemma {:induction false} CollapseNewlinesNone(s: string)
    requires '\n' !in s
    ensures CollapseNewlines(s) == s
    decreases |s|
  {
    if s != [] {
      assert s[0] in s;
      assert '\n' !in s[1..] by {
        forall c | c in s[1..] ensures c != '\n' {
          assert c in s;
        }
      }
      CollapseNewlinesNone(s[1..]);
      SeqFirstRest(s);
    }
  }

  /** Tokens are non-empty, contain no whitespace, and concatenate to the
      non-whitespace characters of the text in their original order. */
  lemma TokenizeWords(s: string)
    ensures IsWordList(Tokenize(s))
    ensures Flatten(Tokenize(s)) == NonSpaceChars(s)
  {
    var c := CollapseNewlines(s);
    SplitWsSpaceFree(c);
    SplitWsChars(c);
    CollapseNewlinesChars(s);
    var r := Tokenize(s);
    forall i | 0 <= i < |r| ensures r[i] != [] && SpaceFree(r[i]) {
      var j :| 0 <= j < |SplitWs(c)| && SplitWs(c)[j] == r[i];
    }
  }

  /** Joining words with single spaces and tokenizing again gives the words back. */
  lemma TokenizeJoin(ws: seq<string>)
    requires IsWordList(ws)
    ensures Tokenize(Join(ws, " ")) == ws
  {
    var j := Join(ws, " ");
    if '\n' in j {
      JoinChars(ws, '\n');
    }
    CollapseNewlinesNone(j);
    if ws == [] {
      assert SplitWs(j) == [""];
    } else {
      SplitWsJoin(ws);
      FilterNonEmptyKeeps(ws);
    }
  }

  /** Tokenizing is idempotent: the space-join of a token list tokenizes to the same list. */
  lemma TokenizeIdempotent(s: string)
    ensures Tokenize(Join(Tokenize(s), " ")) == Tokenize(s)
  {
    TokenizeWords(s);
    TokenizeJoin(Tokenize(s));
  }

  // ------------------------------------------------------------ spoken text

  /** Where `Array.prototype.slice(start)` begins on a list of length `n`:
      a negative start counts from the end. */
  function SliceStart(n: nat, start: int): (k: nat)
    ensures k <= n
    ensures 0 <= start <= n ==> k == start
    ensures start > n ==> k == n
    ensures start < 0 ==> k == Max(0, n + start)
  {
    if start < 0 then Max(0, n + start) else Min(start, n)
  }

  function JsSlice<T>(xs: seq<T>, start: int): seq<T> {
    xs[SliceStart(|xs|, start)..]
  }

  /** The text `speak` hands to the engine for a word list and an index. */
  function SpokenText(words: seq<string>, index: int): string {
    Join(JsSlice(words, index), " ")
  }

  /** The spoken text tokenizes back to exactly the words from the index
      onwards (the last `-index` words for a negative index). */
  lemma SpokenTextWords(words: seq<string>, index: int)
    requires IsWordList(words)
    ensures Tokenize(SpokenText(words, index)) == words[SliceStart(|words|, index)..]
    ensures 0 <= index <= |words| ==> Tokenize(SpokenText(words, index)) == words[index..]
  {
    var k := SliceStart(|words|, index);
    assert IsWordList(words[k..]) by {
      forall i | 0 <= i < |words[k..]| ensures words[k..][i] != [] && SpaceFree(words[k..][i]) {
        assert words[k..][i] == words[k + i];
      }
    }
    TokenizeJoin(words[k..]);
  }

  // ----------------------------------------------------------------- skipping

  /** `Math.max(0, currentWordIndex - 20)`: twenty words back, not before the first. */
  function SkipBackIndex(index: int): (r: int)
    ensures r >= 0
    ensures index >= 20 ==> r == index - 20
    ensures index < 20 ==> r == 0
  {
    Max(0, index - 20)
  }

  /** `Math.min(words.length - 1, currentWordIndex + 20)`: twenty words on, not
      past the last word; -1 for an empty list whatever the index. */
  function SkipForwardIndex(count: nat, index: int): (r: int)
    ensures r <= count - 1
    ensures index + 20 <= count - 1 ==> r == index + 20
    ensures index + 20 > count - 1 ==> r == count - 1
  {
    Min(count - 1, index + 20)
  }

  /** Within a non-empty word list a skip lands on a word, at most twenty away. */
  lemma SkipStaysInList(count: nat, index: int)
    requires 0 <= index < count
    ensures 0 <= SkipBackIndex(index) <= index <= SkipForwardIndex(count, index) < count
    ensures index - SkipBackIndex(index) <= 20 && SkipForwardIndex(count, index) - index <= 20
  {
  }

  /** Skipping back and then forward returns to the same word when neither skip is clamped. */
  lemma SkipRoundTrip(count: nat, index: int)
    requires 20 <= index < count
    ensures SkipForwardIndex(count, SkipBackIndex(index)) == index
    ensures index + 20 < count ==> SkipBackIndex(SkipForwardIndex(count, index)) == index
  {
  }

  // ---------------------------------------------------------- classification

  datatype WordState = Current | Read | Unread

  /** How word `i` is shown: the current word while playing, a read word before the index. */
  function ClassifyWord(i: int, index: int, playing: bool): (w: WordState) {
    if i == index && playing then Current else if i < index then Read else Unread
  }

  lemma ClassifyWordCases(i: int, index: int, playing: bool)
    ensures ClassifyWord(i, index, playing) == Current <==> i == index && playing
    ensures ClassifyWord(i, index, playing) == Read <==> i < index
    ensures ClassifyWord(i, index, playing) == Unread <==> i > index || (i == index && !playing)
  {
  }

  /** The states of all words of the list, position by position. */
  function Highlight(count: nat, index: int, playing: bool): (r: seq<WordState>)
    ensures |r| == count
    ensures forall i :: 0 <= i < count ==> r[i] == ClassifyWord(i, index, playing)
    ensures forall i, j :: 0 <= i < count && 0 <= j < count && r[i] == Current && r[j] == Current ==> i == j
  {
    seq(count, i => ClassifyWord(i, index, playing))
  }

  // ------------------------------------------------------------------ tracker

  /**
   * One `setInterval` word tracker. `start` is the index it began at,
   * `counter` the closure's `wordTracker`, `playing` and `count` the
   * `isPlaying` flag and word count of the render that created it, `running`
   * false once `clearInterval` ran on it.
   */
  datatype Tracker = Tracker(start: int, counter: int, playing: bool, count: nat, running: bool)

  /** A tracker that has started at `start` and only ever stepped up to the word count. */
  predicate TrackerOk(t: Tracker) {
    t.start <= t.counter <= Max(t.start, t.count)
  }

  /** The tracker can still advance: it runs, its render was playing, and words remain. */
  predicate Advances(t: Tracker) {
    t.running && t.playing && t.counter < t.count
  }

  /** One timer tick: advance by one, or clear the interval. A cleared interval never ticks. */
  function TrackerTick(t: Tracker): (r: Tracker)
    ensures !t.running ==> r == t
    ensures Advances(t) ==> r == t.(counter := t.counter + 1)
    ensures t.running && !Advances(t) ==> r == t.(running := false)
    ensures TrackerOk(t) ==> TrackerOk(r)
  {
    if !t.running then t
    else if !t.playing || t.counter >= t.count then t.(running := false)
    else t.(counter := t.counter + 1)
  }

  function TrackerTicks(t: Tracker, n: nat): Tracker
    decreases n
  {
    if n == 0 then t else TrackerTicks(TrackerTick(t), n - 1)
  }

  /** After `n` ticks a tracker that can move has counted `n` more words, but
      never past the word count, and it stops at the first tick that finds no
      word left; one that cannot move has not moved. */
  lemma {:induction false} TrackerTicksCount(t: Tracker, n: nat)
    requires TrackerOk(t)
    ensures var r := TrackerTicks(t, n);
      && r.start == t.start && r.playing == t.playing && r.count == t.count
      && (t.running && t.playing ==> r.counter == Max(t.counter, Min(t.counter + n, t.count)))
      && (!(t.running && t.playing) ==> r.counter == t.counter)
      && (r.running <==> t.running && (n == 0 || (t.playing && t.counter + n <= t.count)))
    decreases n
  {
    if n > 0 {
      TrackerTicksCount(TrackerTick(t), n - 1);
    }
  }

  // ------------------------------------------------------------------- class

  /** A render's view of what `speak` reads. */
  datatype Snapshot = Snapshot(words: seq<string>, index: int, playing: bool, voice: Option<Voice>)

  /** The utterance handed to the engine, and which tracker its end clears. */
  datatype Speech = Speech(utterance: Utterance, tracker: nat)

  /** The utterance `speak` builds from a snapshot. */
  function UtteranceOf(snap: Snapshot): Utterance
    requires snap.voice.Some?
  {
    Utterance(SpokenText(snap.words, snap.index), snap.voice.value)
  }

  /** The tracker `speak` starts from a snapshot. */
  function TrackerOf(snap: Snapshot): (t: Tracker)
    ensures TrackerOk(t) && t.running && t.counter == t.start == snap.index
  {
    Tracker(snap.index, snap.index, snap.playing, |snap.words|, true)
  }

  /** `speak` does anything only with a voice and at least one word. */
  predicate CanSpeak(snap: Snapshot) {
    snap.voice.Some? && |snap.words| > 0
  }

  /**
   * The snapshot the `setTimeout(speak, 100)` of a skip runs with, as written:
   * the `speak` of the render that handled the click, which still holds the
   * index from before the skip.
   */
  function RespeakSnapshotAsWritten(render: Snapshot, newIndex: int): Snapshot {
    render
  }

  /** The snapshot a skip evidently means to resume from: the same render at the new index. */
  function RespeakSnapshot(render: Snapshot, newIndex: int): (s: Snapshot)
    ensures s.index == newIndex && s.words == render.words && s.voice == render.voice
  {
    render.(index := newIndex)
  }

  /** As written, the re-speak after a skip says the words from the index
      before the skip, and its tracker restarts there, whatever the skip's
      target; when the target differs, the words spoken are not those from
      the target onwards. */
  lemma RespeakAsWrittenIgnoresSkip(render: Snapshot, newIndex: int)
    requires IsWordList(render.words) && 0 <= render.index <= |render.words|
    ensures var s := RespeakSnapshotAsWritten(render, newIndex);
      && Tokenize(SpokenText(s.words, s.index)) == render.words[render.index..]
      && TrackerOf(s).counter == render.index
      && (0 <= newIndex <= |render.words| && newIndex != render.index ==>
            Tokenize(SpokenText(s.words, s.index)) != render.words[newIndex..])
  {
    SpokenTextWords(render.words, render.index);
    if 0 <= newIndex <= |render.words| && newIndex != render.index {
      assert |render.words[render.index..]| != |render.words[newIndex..]|;
    }
  }

  /** As written, skipping back twenty words while playing word 25 of 30 resumes
      speaking at word 25, and the tracker restarts there too. */
  lemma RespeakAsWrittenExample()
    ensures var words := seq(30, i => "w");
      var render := Snapshot(words, 25, true, Some(Voice("v", "en-US")));
      var newIndex := SkipBackIndex(render.index);
      && newIndex == 5
      && TrackerOf(RespeakSnapshotAsWritten(render, newIndex)).counter == 25
      && Tokenize(SpokenText(RespeakSnapshotAsWritten(render, newIndex).words, RespeakSnapshotAsWritten(render, newIndex).index)) == words[25..]
      && words[25..] != words[5..]
  {
    var words := seq(30, i => "w");
    assert IsWordList(words) by {
      forall i | 0 <= i < 30 ensures words[i] != [] && SpaceFree(words[i]) {
        assert words[i] == "w";
      }
    }
    SpokenTextWords(words, 25);
    assert |words[25..]| != |words[5..]|;
  }

  /** With the corrected snapshot, a skip while playing resumes at the new
      index: the words spoken are exactly those from the skip target onwards. */
  lemma RespeakResumesAtSkip(render: Snapshot, newIndex: int)
    requires IsWordList(render.words) && 0 <= newIndex <= |render.words|
    ensures var s := RespeakSnapshot(render, newIndex);
      Tokenize(SpokenText(s.words, s.index)) == render.words[newIndex..]
      && TrackerOf(s).counter == newIndex
  {
    SpokenTextWords(render.words, newIndex);
  }

  class ReaderView {
    const store: AppStore
    /** The component's `words` state. */
    var words: seq<string>
    /** Every interval `speak` has started, in order. */
    var trackers: seq<Tracker>
    /** The utterance the engine holds, if any. */
    var engine: Option<Speech>
    /** Scheduled `speak` calls, in firing order. */
    var scheduled: seq<Snapshot>

    predicate Valid()
      reads this
    {
      && (forall k :: 0 <= k < |trackers| ==> TrackerOk(trackers[k]))
      && (engine.Some? ==> engine.value.tracker < |trackers|)
    }

    constructor (store: AppStore)
      ensures this.store == store && words == [] && trackers == [] && engine == None && scheduled == []
      ensures Valid()
    {
      this.store := store;
      words := [];
      trackers := [];
      engine := None;
      scheduled := [];
    }

    /** What the current render's handlers see. */
    function Render(): Snapshot
      reads this, store
    {
      Snapshot(words, store.state.currentWordIndex, store.state.isPlaying, store.state.selectedVoice)
    }

    /** The effect on `extractedContent`: re-tokenize non-empty content; empty content leaves the words. */
    method SyncContent()
      requires Valid()
      modifies this
      ensures Valid()
      ensures store.state.extractedContent != "" ==> words == Tokenize(store.state.extractedContent)
      ensures store.state.extractedContent == "" ==> words == old(words)
      ensures IsWordList(words) || words == old(words)
      ensures trackers == old(trackers) && engine == old(engine) && scheduled == old(scheduled)
    {
      if store.state.extractedContent != "" {
        words := Tokenize(store.state.extractedContent);
        TokenizeWords(store.state.extractedContent);
      }
    }

    /** `speak` as created by the render `snap`: cancel whatever is spoken, hand
        the words from the snapshot's index to the engine, start a tracker. */
    method SpeakWith(snap: Snapshot)
      requires Valid()
      modifies this, store
      ensures Valid()
      ensures words == old(words) && scheduled == old(scheduled)
      ensures !CanSpeak(snap) ==>
        trackers == old(trackers) && engine == old(engine) && store.state == old(store.state)
      ensures CanSpeak(snap) ==>
        && trackers == old(trackers) + [TrackerOf(snap)]
        && engine == Some(Speech(UtteranceOf(snap), |old(trackers)|))
        && store.state == old(store.state).(currentUtterance := Some(UtteranceOf(snap)))
    {
      if snap.voice == None || |snap.words| == 0 {
        return;
      }
      var u := UtteranceOf(snap);
      trackers := trackers + [TrackerOf(snap)];
      engine := Some(Speech(u, |trackers| - 1));
      store.SetCurrentUtterance(Some(u));
    }

    /** `speak` from a click on the play button of the current render. */
    method Speak()
      requires Valid()
      modifies this, store
      ensures Valid()
      ensures words == old(words) && scheduled == old(scheduled)
      ensures !CanSpeak(old(Render())) ==>
        trackers == old(trackers) && engine == old(engine) && store.state == old(store.state)
      ensures CanSpeak(old(Render())) ==>
        && trackers == old(trackers) + [TrackerOf(old(Render()))]
        && engine == Some(Speech(UtteranceOf(old(Render())), |old(trackers)|))
        && store.state == old(store.state).(currentUtterance := Some(UtteranceOf(old(Render()))))
    {
      SpeakWith(Render());
    }

    /** The engine begins the utterance. */
    method OnStart()
      requires Valid() && engine.Some?
      modifies store
      ensures Valid()
      ensures store.state == old(store.state).(isPlaying := true)
    {
      store.SetIsPlaying(true);
    }

    /** The engine finishes the utterance: its tracker is cleared and the index
        goes back to the first word. */
    method OnEnd()
      requires Valid() && engine.Some?
      modifies this, store
      ensures Valid()
      ensures var k := old(engine).value.tracker;
        trackers == old(trackers)[k := old(trackers)[k].(running := false)]
      ensures engine == None && words == old(words) && scheduled == old(scheduled)
      ensures store.state == old(store.state).(isPlaying := false, currentUtterance := None, currentWordIndex := 0)
    {
      var k := engine.value.tracker;
      trackers := trackers[k := trackers[k].(running := false)];
      engine := None;
      store.SetIsPlaying(false);
      store.SetCurrentUtterance(None);
      store.SetCurrentWordIndex(0);
    }

    /** The engine reports an error: playback stops, the index and the tracker are kept. */
    method OnError()
      requires Valid() && engine.Some?
      modifies this, store
      ensures Valid()
      ensures engine == None && trackers == old(trackers) && words == old(words) && scheduled == old(scheduled)
      ensures store.state == old(store.state).(isPlaying := false, currentUtterance := None)
    {
      engine := None;
      store.SetIsPlaying(false);
      store.SetCurrentUtterance(None);
    }

    /** Tracker `k`'s interval fires: it steps the index by one word or clears itself. */
    method Tick(k: nat)
      requires Valid() && k < |trackers| && trackers[k].running
      modifies this, store
      ensures Valid()
      ensures trackers == old(trackers)[k := TrackerTick(old(trackers)[k])]
      ensures engine == old(engine) && words == old(words) && scheduled == old(scheduled)
      ensures Advances(old(trackers)[k]) ==>
        store.state == old(store.state).(currentWordIndex := old(trackers)[k].counter + 1)
      ensures !Advances(old(trackers)[k]) ==> store.state == old(store.state)
      ensures store.state.currentWordIndex != old(store.state.currentWordIndex) ==>
        store.state.currentWordIndex <= trackers[k].count
    {
      var t := trackers[k];
      if !t.playing || t.counter >= t.count {
        trackers := trackers[k := t.(running := false)];
        return;
      }
      trackers := trackers[k := t.(counter := t.counter + 1)];
      store.SetCurrentWordIndex(t.counter + 1);
    }

    /** `pause`: cancel speech and stop playing; the index and every tracker stay as they are. */
    method Pause()
      requires Valid()
      modifies this, store
      ensures Valid()
      ensures engine == None && trackers == old(trackers) && words == old(words) && scheduled == old(scheduled)
      ensures store.state == old(store.state).(isPlaying := false, currentUtterance := None)
    {
      engine := None;
      store.SetIsPlaying(false);
      store.SetCurrentUtterance(None);
    }

    /** The play button: pause while playing, otherwise speak; disabled without words. */
    method PlayButton()
      requires Valid()
      modifies this, store
      ensures Valid()
      ensures words == old(words) && scheduled == old(scheduled)
      ensures |old(words)| == 0 ==>
        trackers == old(trackers) && engine == old(engine) && store.state == old(store.state)
      ensures |old(words)| > 0 && old(store.state.isPlaying) ==>
        engine == None && trackers == old(trackers)
        && store.state == old(store.state).(isPlaying := false, currentUtterance := None)
      ensures |old(words)| > 0 && !old(store.state.isPlaying) && !CanSpeak(old(Render())) ==>
        trackers == old(trackers) && engine == old(engine) && store.state == old(store.state)
      ensures |old(words)| > 0 && !old(store.state.isPlaying) && CanSpeak(old(Render())) ==>
        && trackers == old(trackers) + [TrackerOf(old(Render()))]
        && !trackers[|trackers| - 1].playing
        && engine == Some(Speech(UtteranceOf(old(Render())), |old(trackers)|))
        && store.state == old(store.state).(currentUtterance := Some(UtteranceOf(old(Render()))))
    {
      if |words| == 0 {
        return;
      }
      if store.state.isPlaying {
        Pause();
      } else {
        Speak();
      }
    }

    /** A skip to `newIndex`: store it, and while playing pause and schedule a re-speak there. */
    method SkipTo(newIndex: int)
      requires Valid()
      modifies this, store
      ensures Valid()
      ensures words == old(words) && trackers == old(trackers)
      ensures !old(store.state.isPlaying) ==>
        engine == old(engine) && scheduled == old(scheduled)
        && store.state == old(store.state).(currentWordIndex := newIndex)
      ensures old(store.state.isPlaying) ==>
        && engine == None
        && scheduled == old(scheduled) + [RespeakSnapshot(old(Render()), newIndex)]
        && store.state == old(store.state).(currentWordIndex := newIndex, isPlaying := false, currentUtterance := None)
    {
      var render := Render();
      store.SetCurrentWordIndex(newIndex);
      if render.playing {
        Pause();
        scheduled := scheduled + [RespeakSnapshot(render, newIndex)];
      }
    }

    /** `skipBack`: twenty words back, not before the first word. */
    method SkipBack()
      requires Valid()
      modifies this, store
      ensures Valid()
      ensures store.state.currentWordIndex == SkipBackIndex(old(store.state.currentWordIndex))
      ensures words == old(words) && trackers == old(trackers)
      ensures old(store.state.isPlaying) <==> |scheduled| == |old(scheduled)| + 1
      ensures old(store.state.isPlaying) ==>
        engine == None && !store.state.isPlaying && scheduled[|scheduled| - 1].index == store.state.currentWordIndex
      ensures !old(store.state.isPlaying) ==>
        engine == old(engine) && scheduled == old(scheduled)
        && store.state == old(store.state).(currentWordIndex := SkipBackIndex(old(store.state.currentWordIndex)))
      ensures old(store.state.isPlaying) ==>
        && scheduled == old(scheduled) + [RespeakSnapshot(old(Render()), SkipBackIndex(old(store.state.currentWordIndex)))]
        && store.state == old(store.state).(currentWordIndex := SkipBackIndex(old(store.state.currentWordIndex)), isPlaying := false, currentUtterance := None)
    {
      SkipTo(SkipBackIndex(store.state.currentWordIndex));
    }

    /** `skipForward`: twenty words on, not past the last word. */
    method SkipForward()
      requires Valid()
      modifies this, store
      ensures Valid()
      ensures store.state.currentWordIndex == SkipForwardIndex(|words|, old(store.state.currentWordIndex))
      ensures words == old(words) && trackers == old(trackers)
      ensures old(store.state.isPlaying) <==> |scheduled| == |old(scheduled)| + 1
      ensures old(store.state.isPlaying) ==>
        engine == None && !store.state.isPlaying && scheduled[|scheduled| - 1].index == store.state.currentWordIndex
      ensures !old(store.state.isPlaying) ==>
        engine == old(engine) && scheduled == old(scheduled)
        && store.state == old(store.state).(currentWordIndex := SkipForwardIndex(|old(words)|, old(store.state.currentWordIndex)))
      ensures old(store.state.isPlaying) ==>
        && scheduled == old(scheduled) + [RespeakSnapshot(old(Render()), SkipForwardIndex(|old(words)|, old(store.state.currentWordIndex)))]
        && store.state == old(store.state).(currentWordIndex := SkipForwardIndex(|old(words)|, old(store.state.currentWordIndex)), isPlaying := false, currentUtterance := None)
    {
      SkipTo(SkipForwardIndex(|words|, store.state.currentWordIndex));
    }

    /** The oldest scheduled `speak` fires. */
    method FireScheduled()
      requires Valid() && scheduled != []
      modifies this, store
      ensures Valid()
      ensures scheduled == old(scheduled)[1..] && words == old(words)
      ensures var snap := old(scheduled)[0];
        CanSpeak(snap) ==>
          && trackers == old(trackers) + [TrackerOf(snap)]
          && engine == Some(Speech(UtteranceOf(snap), |old(trackers)|))
          && store.state == old(store.state).(currentUtterance := Some(UtteranceOf(snap)))
      ensures !CanSpeak(old(scheduled)[0]) ==>
        trackers == old(trackers) && engine == old(engine) && store.state == old(store.state)
    {
      var snap := scheduled[0];
      scheduled := scheduled[1..];
      SpeakWith(snap);
    }

    /** The close button hides the reader. */
    method Close()
      requires Valid()
      modifies store
      ensures Valid()
      ensures store.state == old(store.state).(showReaderView := false)
    {
      store.SetShowReaderView(false);
    }
  }
}
