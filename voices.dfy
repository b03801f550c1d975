/**
 * Voice selection in `speakStory` (StoryPlayer.jsx lines 38-106): a
 * first-match search over the engine's voice list, driven for English by an
 * ordered list of preferred voice names.
 */
module Voices {
  import opened Wrappers
  import opened Text

  /** A `SpeechSynthesisVoice`: its display name and its BCP 47 language tag. */
  datatype Voice = Voice(name: string, lang: string)

  /** Preferred English voices, best first (lines 72-85). */
  const EnglishVoiceNames: seq<string> := [
    "Samantha", "Alex", "Google US English", "Google UK English Female",
    "Microsoft Zira", "Microsoft Eva", "Karen", "Victoria", "Fiona",
    "Moira", "Tessa", "Serena"
  ]

  /** The second Hindi name of line 53, a mis-encoded literal kept as written. */
  const MisencodedHindiName: string :=
    "\U{2021}\U{A7}\U{3C0}\U{2021}\U{A7}\U{F8}\U{2021}\U{A7}\U{C7}\U{2021}\U{A7}\U{B6}\U{2021}\U{2022}\U{C4}"

  /** Name fragments that identify a Hindi voice (line 53). */
  const HindiVoiceNames: seq<string> := ["hindi", MisencodedHindiName, "lekha", "hemant", "kalpana"]

  /** The test of line 89 for one preferred name. */
  predicate MatchesPreferred(v: Voice, preferred: string) {
    Contains(v.name, preferred) && StartsWith(v.lang, "en")
  }

  function PreferredMatcher(preferred: string): Voice -> bool {
    v => MatchesPreferred(v, preferred)
  }

  /** Some voice of the list passes the test of line 89 for `preferred`. */
  predicate Offers(voices: seq<Voice>, preferred: string) {
    FindIndex(voices, PreferredMatcher(preferred)).Some?
  }

  /** The fallback test of lines 96-100: a "female" or "woman" English voice. */
  predicate IsFallbackEnglish(v: Voice) {
    var name := LowerStr(v.name);
    (Contains(name, "female") || Contains(name, "woman")) && StartsWith(v.lang, "en")
  }

  /** The locale test of lines 44-48 (`voice.lang &&` excludes the empty tag). */
  predicate HasHindiLocale(v: Voice) {
    var lang := LowerStr(v.lang);
    v.lang != "" && (Contains(lang, "hi-in") || Contains(lang, "hi_in") || StartsWith(lang, "hi"))
  }

  /** The locale test ignores case: a tag such as "HI-IN" passes it. */
  lemma UpperCaseHindiLocale(v: Voice)
    requires StartsWith(v.lang, "HI")
    ensures HasHindiLocale(v)
  {
    assert v.lang[..2][0] == 'H' && v.lang[..2][1] == 'I';
    assert LowerStr(v.lang)[..2] == "hi";
  }

  /** The name test of lines 55-57. */
  predicate HasHindiName(v: Voice) {
    exists i | 0 <= i < |HindiVoiceNames| :: Contains(LowerStr(v.name), HindiVoiceNames[i])
  }

  /** The name test ignores case: a name such as "Google Hindi" passes it. */
  lemma CapitalisedHindiName(v: Voice)
    requires Contains(v.name, "Hindi")
    ensures HasHindiName(v)
  {
    var i :| 0 <= i <= |v.name| && OccursAt(v.name, "Hindi", i);
    var name := LowerStr(v.name);
    forall j | 0 <= j < 5
      ensures name[i..][..5][j] == "hindi"[j]
    {
      assert v.name[i..][..5][j] == "Hindi"[j];
    }
    assert OccursAt(name, HindiVoiceNames[0], i);
  }

  /**
   * The first preferred name, from position `from` on, that some voice
   * offers: every earlier name is offered by no voice.
   */
  function FirstOffered(voices: seq<Voice>, prefs: seq<string>, from: nat): (r: Option<nat>)
    requires from <= |prefs|
    ensures r.Some? ==> from <= r.value < |prefs| && Offers(voices, prefs[r.value])
    ensures r.Some? ==> forall j :: from <= j < r.value ==> !Offers(voices, prefs[j])
    ensures r.None? ==> forall j :: from <= j < |prefs| ==> !Offers(voices, prefs[j])
    decreases |prefs| - from
  {
    if from == |prefs| then None
    else if Offers(voices, prefs[from]) then Some(from)
    else FirstOffered(voices, prefs, from + 1)
  }

  /** The voice at the index a search found. */
  function At(voices: seq<Voice>, found: Option<nat>): (r: Option<Voice>)
    requires found.Some? ==> found.value < |voices|
    ensures r.Some? <==> found.Some?
    ensures r.Some? ==> r.value == voices[found.value]
  {
    match found
    case None => None
    case Some(i) => Some(voices[i])
  }

  /**
   * The English choice (lines 87-101): the first voice that matches the
   * earliest preferred name any voice matches; failing that, the first
   * "female"/"woman" English voice.
   */
  function EnglishVoice(voices: seq<Voice>): (r: Option<Voice>)
    ensures r.Some? ==> r.value in voices && StartsWith(r.value.lang, "en")
  {
    match FirstOffered(voices, EnglishVoiceNames, 0)
    case Some(k) => At(voices, FindIndex(voices, PreferredMatcher(EnglishVoiceNames[k])))
    case None => At(voices, FindIndex(voices, IsFallbackEnglish))
  }

  /** The Hindi choice (lines 43-59): a locale match, failing that a name match. */
  function HindiVoice(voices: seq<Voice>): (r: Option<Voice>)
    ensures r.Some? ==> r.value in voices && (HasHindiLocale(r.value) || HasHindiName(r.value))
  {
    match FindIndex(voices, HasHindiLocale)
    case Some(i) => Some(voices[i])
    case None => At(voices, FindIndex(voices, HasHindiName))
  }

  /** `language === 'hindi'` selects the Hindi rules; every other value the English ones. */
  function VoiceFor(voices: seq<Voice>, language: string): (r: Option<Voice>)
    ensures r.Some? ==> r.value in voices
    ensures language != "hindi" && r.Some? ==> StartsWith(r.value.lang, "en")
  {
    if language == "hindi" then HindiVoice(voices) else EnglishVoice(voices)
  }

  /** The loop of lines 87-92 and the fallback of lines 95-101. */
  method ChooseEnglishVoice(voices: seq<Voice>) returns (selected: Option<Voice>)
    ensures selected == EnglishVoice(voices)
  {
    selected := None;
    for k := 0 to |EnglishVoiceNames|
      invariant selected.None?
      invariant FirstOffered(voices, EnglishVoiceNames, 0) == FirstOffered(voices, EnglishVoiceNames, k)
    {
      selected := At(voices, FindIndex(voices, PreferredMatcher(EnglishVoiceNames[k])));
      if selected.Some? {
        break;
      }
    }
    if selected.None? {
      selected := At(voices, FindIndex(voices, IsFallbackEnglish));
    }
  }

  /** The whole selection of lines 38-106. */
  method ChooseVoice(voices: seq<Voice>, language: string) returns (selected: Option<Voice>)
    ensures selected == VoiceFor(voices, language)
  {
    if language == "hindi" {
      selected := At(voices, FindIndex(voices, HasHindiLocale));
      if selected.None? {
        selected := At(voices, FindIndex(voices, HasHindiName));
      }
    } else {
      selected := ChooseEnglishVoice(voices);
    }
  }

  /**
   * A voice matching an earlier preferred name beats any later one: when
   * some voice matches preferred name `j`, the choice is the first voice
   * matching a preferred name at position `j` or before, every name before
   * that position being matched by no voice.
   */
  lemma EarlierPreferenceWins(voices: seq<Voice>, j: nat, v: Voice)
    requires j < |EnglishVoiceNames| && v in voices && MatchesPreferred(v, EnglishVoiceNames[j])
    ensures var k := FirstOffered(voices, EnglishVoiceNames, 0);
            && k.Some? && k.value <= j
            && EnglishVoice(voices).Some?
            && MatchesPreferred(EnglishVoice(voices).value, EnglishVoiceNames[k.value])
            && (forall i :: 0 <= i < k.value ==>
                  forall u :: u in voices ==> !MatchesPreferred(u, EnglishVoiceNames[i]))
  {
    var idx :| 0 <= idx < |voices| && voices[idx] == v;
    assert PreferredMatcher(EnglishVoiceNames[j])(voices[idx]);
    assert Offers(voices, EnglishVoiceNames[j]);
    var k := FirstOffered(voices, EnglishVoiceNames, 0);
    forall i, u | 0 <= i < k.value && u in voices
      ensures !MatchesPreferred(u, EnglishVoiceNames[i])
    {
      var n :| 0 <= n < |voices| && voices[n] == u;
      assert !PreferredMatcher(EnglishVoiceNames[i])(voices[n]);
    }
  }

  /**
   * For Hindi a locale match beats a name match: if any voice has a Hindi
   * locale, the choice is the first such voice.
   */
  lemma HindiLocaleBeatsName(voices: seq<Voice>, v: Voice)
    requires v in voices && HasHindiLocale(v)
    ensures var r := VoiceFor(voices, "hindi");
            && r.Some? && HasHindiLocale(r.value)
            && exists i :: 0 <= i < |voices| && voices[i] == r.value
                 && forall j :: 0 <= j < i ==> !HasHindiLocale(voices[j])
  {
    var idx :| 0 <= idx < |voices| && voices[idx] == v;
    assert HasHindiLocale(voices[idx]);
    var i := FindIndex(voices, HasHindiLocale).value;
    assert voices[i] == VoiceFor(voices, "hindi").value;
  }

  /** Without a Hindi locale, the choice is the first voice with a Hindi name, if any. */
  lemma HindiNameFallback(voices: seq<Voice>)
    requires forall v :: v in voices ==> !HasHindiLocale(v)
    ensures var r := VoiceFor(voices, "hindi");
            && (r.Some? <==> exists v :: v in voices && HasHindiName(v))
            && (r.Some? ==> HasHindiName(r.value))
  {
    assert forall i :: 0 <= i < |voices| ==> !HasHindiLocale(voices[i]);
    var found := FindIndex(voices, HasHindiName);
    if found.None? {
      forall v | v in voices ensures !HasHindiName(v) {
        var n :| 0 <= n < |voices| && voices[n] == v;
      }
    }
  }

  /**
   * With a Hindi and an English voice installed, Hindi stories get the Hindi
   * voice (by locale) and English stories the English one (by preferred name).
   */
  lemma TwoVoiceScenario(voices: seq<Voice>)
    requires voices == [Voice("Google Hindi", "hi-IN"), Voice("Samantha", "en-US")]
    ensures VoiceFor(voices, "hindi") == Some(voices[0])
    ensures VoiceFor(voices, "english") == Some(voices[1])
  {
    assert LowerStr(voices[0].lang)[..2] == "hi";
    assert HasHindiLocale(voices[0]);
    assert voices[0].lang[..2][0] == 'h';
    assert !StartsWith(voices[0].lang, "en");
    assert voices[1].name[..|"Samantha"|] == "Samantha";
    assert OccursAt(voices[1].name, "Samantha", 0);
    assert MatchesPreferred(voices[1], EnglishVoiceNames[0]);
    assert PreferredMatcher(EnglishVoiceNames[0])(voices[1]);
    assert !PreferredMatcher(EnglishVoiceNames[0])(voices[0]);
    assert FindIndex(voices, PreferredMatcher(EnglishVoiceNames[0])) == Some(1);
  }

}
