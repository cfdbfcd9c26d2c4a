/**
 * The voice picker (src/components/VoiceSelection.tsx): when the engine
 * reports its voices they become the available list and, if no voice is
 * selected yet, the first English voice (or else the first voice) is
 * selected; voices are labelled by name and language and flagged by the
 * language code.
 */
module VoiceSelection {
  import opened Wrappers
  import opened Text
  import opened Store

  predicate IsEnglish(v: Voice) {
    StartsWith(v.lang, "en")
  }

  /** `voices.find(voice => voice.lang.startsWith('en'))`, as a position. */
  function FirstEnglish(voices: seq<Voice>): (r: Option<nat>)
    ensures r.Some? ==> r.value < |voices| && IsEnglish(voices[r.value])
    ensures r.Some? ==> forall j :: 0 <= j < r.value ==> !IsEnglish(voices[j])
    ensures r == None ==> forall j :: 0 <= j < |voices| ==> !IsEnglish(voices[j])
  {
    if voices == [] then None
    else if IsEnglish(voices[0]) then Some(0)
    else match FirstEnglish(voices[1..])
      case None => None
      case Some(i) => Some(i + 1)
  }

  /** `englishVoice || voices[0]`. */
  function DefaultVoice(voices: seq<Voice>): Voice
    requires |voices| > 0
  {
    match FirstEnglish(voices)
    case Some(i) => voices[i]
    case None => voices[0]
  }

  /** The default voice is one of the voices: the first English one when there
      is one, otherwise the first of all. */
  lemma DefaultVoiceChoice(voices: seq<Voice>)
    requires |voices| > 0
    ensures DefaultVoice(voices) in voices
    ensures forall i :: 0 <= i < |voices| && IsEnglish(voices[i]) ==>
      exists j :: 0 <= j <= i && DefaultVoice(voices) == voices[j] && IsEnglish(voices[j])
        && forall k :: 0 <= k < j ==> !IsEnglish(voices[k])
    ensures (forall i :: 0 <= i < |voices| ==> !IsEnglish(voices[i])) ==> DefaultVoice(voices) == voices[0]
  {
    var r := FirstEnglish(voices);
    if r.Some? {
      forall i | 0 <= i < |voices| && IsEnglish(voices[i])
        ensures exists j :: (0 <= j <= i && DefaultVoice(voices) == voices[j] && IsEnglish(voices[j])
          && forall k :: 0 <= k < j ==> !IsEnglish(voices[k]))
      {
        assert r.value <= i;
      }
    }
  }

  /** `loadVoices` with the engine reporting `voices`: an empty report changes
      nothing, otherwise the list is stored, and a voice is chosen only if none is selected. */
  method LoadVoices(store: AppStore, voices: seq<Voice>)
    modifies store
    ensures |voices| == 0 ==> store.state == old(store.state)
    ensures |voices| > 0 && old(store.state.selectedVoice).Some? ==>
      store.state == old(store.state).(availableVoices := voices)
    ensures |voices| > 0 && old(store.state.selectedVoice) == None ==>
      store.state == old(store.state).(availableVoices := voices, selectedVoice := Some(DefaultVoice(voices)))
  {
    if |voices| > 0 {
      store.SetAvailableVoices(voices);
      if store.state.selectedVoice == None {
        store.SetSelectedVoice(Some(DefaultVoice(voices)));
      }
    }
  }

  /** `getVoiceDisplayName`: the name and the parenthesised language, each only
      when non-empty, separated by a space; 'Unknown Voice' when both are empty. */
  function VoiceDisplayName(v: Voice): (r: string)
    ensures r != ""
  {
    var parts := (if v.name != "" then [v.name] else []) + (if v.lang != "" then ["(" + v.lang + ")"] else []);
    var joined := Join(parts, " ");
    if joined != "" then joined else "Unknown Voice"
  }

  lemma VoiceDisplayNameCases(v: Voice)
    ensures v.name != "" && v.lang != "" ==> VoiceDisplayName(v) == v.name + " (" + v.lang + ")"
    ensures v.name != "" && v.lang == "" ==> VoiceDisplayName(v) == v.name
    ensures v.name == "" && v.lang != "" ==> VoiceDisplayName(v) == "(" + v.lang + ")"
    ensures v.name == "" && v.lang == "" ==> VoiceDisplayName(v) == "Unknown Voice"
  {
    if v.name != "" && v.lang != "" {
      var parts := [v.name, "(" + v.lang + ")"];
      assert parts[1..] == ["(" + v.lang + ")"];
      assert Join(parts, " ") == v.name + " " + ("(" + v.lang + ")");
      assert v.name + " " + ("(" + v.lang + ")") == v.name + " (" + v.lang + ")";
    }
  }

  /** `s.split(sep)[0]`: everything before the first `sep`, or all of `s`. */
  function BeforeFirst(s: string, sep: char): (r: string)
    ensures StartsWith(s, r)
    ensures sep !in r
    ensures |r| < |s| ==> s[|r|] == sep
  {
    if s == [] then []
    else if s[0] == sep then []
    else [s[0]] + BeforeFirst(s[1..], sep)
  }

  /** `lang.toLowerCase().split('-')[0]`. */
  function LangCode(lang: string): string {
    BeforeFirst(ToLower(lang), '-')
  }

  const Globe := "\U{1F310}"

  /** The flag table, by lower-case language code. */
  const Flags: map<string, string> := map[
    "en" := "\U{1F1FA}\U{1F1F8}", "es" := "\U{1F1EA}\U{1F1F8}", "fr" := "\U{1F1EB}\U{1F1F7}",
    "de" := "\U{1F1E9}\U{1F1EA}", "it" := "\U{1F1EE}\U{1F1F9}", "pt" := "\U{1F1F5}\U{1F1F9}",
    "ru" := "\U{1F1F7}\U{1F1FA}", "ja" := "\U{1F1EF}\U{1F1F5}", "ko" := "\U{1F1F0}\U{1F1F7}",
    "zh" := "\U{1F1E8}\U{1F1F3}", "ar" := "\U{1F1F8}\U{1F1E6}", "hi" := "\U{1F1EE}\U{1F1F3}"]

  /** `getVoiceFlag`: the table's flag for the language code, else the globe. */
  function VoiceFlag(lang: string): (r: string)
    ensures LangCode(lang) in Flags ==> r == Flags[LangCode(lang)]
    ensures LangCode(lang) !in Flags ==> r == Globe
  {
    var code := LangCode(lang);
    if code in Flags && Flags[code] != "" then Flags[code] else Globe
  }

  /** Only the part before the first '-' decides the flag, whatever region or script follows. */
  lemma VoiceFlagIgnoresRegion(code: string, region: string)
    requires '-' !in code
    ensures VoiceFlag(code + "-" + region) == VoiceFlag(code)
  {
    LangCodeIgnoresRegion(code, region);
  }

  lemma LangCodeIgnoresRegion(code: string, region: string)
    requires '-' !in code
    ensures LangCode(code + "-" + region) == LangCode(code)
  {
    var lc, lr := ToLower(code), ToLower(region);
    var tail := ['-'] + region;
    assert code + "-" + region == code + tail;
    LowerAppend(code, tail);
    LowerDash(region);
    assert ToLower(code + tail) == lc + (['-'] + lr);
    LowerKeepsDashFree(code);
    BeforeFirstAppend(lc, lr, '-');
    BeforeFirstNone(lc, '-');
  }

  lemma LowerDash(s: string)
    ensures ToLower(['-'] + s) == ['-'] + ToLower(s)
  {
    assert (['-'] + s)[1..] == s;
  }

  lemma LowerKeepsDashFree(s: string)
    requires '-' !in s
    ensures '-' !in ToLower(s)
  {
    var l := ToLower(s);
    forall i | 0 <= i < |l| ensures l[i] != '-' {
      assert s[i] in s;
    }
  }

  /** Upper-case letters do not change the flag. */
  lemma VoiceFlagIgnoresCase(lang: string)
    ensures VoiceFlag(ToLower(lang)) == VoiceFlag(lang)
  {
    LowerIdempotent(lang);
  }

  lemma {:induction false} LowerAppend(a: string, b: string)
    ensures ToLower(a + b) == ToLower(a) + ToLower(b)
    decreases |a|
  {
    if a == [] {
      assert a + b == b;
    } else {
      assert (a + b)[0] == a[0];
      assert (a + b)[1..] == a[1..] + b;
      LowerAppend(a[1..], b);
      var c := [LowerChar(a[0])];
      assert ToLower(a + b) == c + (ToLower(a[1..]) + ToLower(b));
      assert c + (ToLower(a[1..]) + ToLower(b)) == (c + ToLower(a[1..])) + ToLower(b);
    }
  }

  lemma LowerIdempotent(s: string)
    ensures ToLower(ToLower(s)) == ToLower(s)
  {
    var l, r := ToLower(ToLower(s)), ToLower(s);
    forall i | 0 <= i < |l| ensures l[i] == r[i] {
    }
  }

  lemma {:induction false} BeforeFirstNone(s: string, sep: char)
    requires sep !in s
    ensures BeforeFirst(s, sep) == s
    decreases |s|
  {
    if s != [] {
      assert s[0] in s;
      assert sep !in s[1..] by {
        forall c | c in s[1..] ensures c != sep {
          assert c in s;
        }
      }
      BeforeFirstNone(s[1..], sep);
      assert s == [s[0]] + s[1..];
    }
  }

  lemma {:induction false} BeforeFirstAppend(a: string, b: string, sep: char)
    requires sep !in a
    ensures BeforeFirst(a + ([sep] + b), sep) == BeforeFirst(a, sep)
    decreases |a|
  {
    if a == [] {
      assert a + ([sep] + b) == [sep] + b;
    } else {
      assert a[0] in a;
      assert sep !in a[1..] by {
        forall c | c in a[1..] ensures c != sep {
          assert c in a;
        }
      }
      assert (a + ([sep] + b))[1..] == a[1..] + ([sep] + b);
      BeforeFirstAppend(a[1..], b, sep);
    }
  }
}
