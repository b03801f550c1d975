/**
 * The read-aloud controller of StoryPlayer.jsx: the playback state
 * (`isPlaying`, `isPaused`, `currentWordIndex` and the mirror
 * `wordIndexRef`), the handlers behind the Play, Pause and Stop buttons, the
 * utterance callbacks, and the per-word highlight classes.
 * Each handler is one atomic transition.
 */
module Player {
  import opened Wrappers
  import opened Text
  import opened Tokenizer
  import opened Voices
  import opened Speech

  /** A `boundary` event: `name`, `charIndex`, and `charLength`, which some engines omit. */
  datatype BoundaryEvent = BoundaryEvent(name: string, charIndex: int, charLength: Option<int>)

  /** The two optional classes of one word span (lines 303-308). */
  datatype WordMark = WordMark(highlighted: bool, played: bool)

  /** Initial slider values (lines 9-10). */
  const InitialRate: real := 0.95
  const InitialPitch: real := 1.0

  /** `utterance.lang` (lines 40 and 69). */
  function LangTag(language: string): (tag: string)
    ensures tag == "hi-IN" <==> language == "hindi"
    ensures tag == "hi-IN" || tag == "en-US"
  {
    if language == "hindi" then "hi-IN" else "en-US"
  }

  /** The utterance `speakStory` builds from the story and the current settings (lines 27-117). */
  function StoryUtterance(story: string, language: string, voices: seq<Voice>,
                          rate: real, pitch: real): (u: Utterance)
    ensures u.text == story && u.rate == rate && u.pitch == pitch && u.volume == 1.0
    ensures u.lang == LangTag(language)
    ensures u.voice.Some? ==> u.voice.value in voices
    ensures language != "hindi" && u.voice.Some? ==> StartsWith(u.voice.value.lang, "en")
  {
    Utterance(story, LangTag(language), VoiceFor(voices, language), rate, pitch, 1.0)
  }

  /** Building the utterance: the voice chosen by the rules of lines 38-106, then lines 108-117. */
  method BuildUtterance(story: string, language: string, voices: seq<Voice>,
                        rate: real, pitch: real) returns (u: Utterance)
    ensures u == StoryUtterance(story, language, voices, rate, pitch)
  {
    var voice := ChooseVoice(voices, language);
    u := Utterance(story, LangTag(language), voice, rate, pitch, 1.0);
  }

  /** The classes of each word span, for `words.length` words (lines 303-308). */
  function WordMarks(wordCount: nat, current: int): (r: seq<WordMark>)
    ensures |r| == wordCount
  {
    seq(wordCount, i => WordMark(i == current, i < current))
  }

  /** Indices of the highlighted spans. */
  ghost function Highlighted(marks: seq<WordMark>): set<int> {
    set i | 0 <= i < |marks| && marks[i].highlighted
  }

  /** Indices of the played spans. */
  ghost function Played(marks: seq<WordMark>): set<int> {
    set i | 0 <= i < |marks| && marks[i].played
  }

  /**
   * Exactly one word is highlighted when the index is a word of the story and
   * none otherwise; the played words are exactly those before it; no word is
   * both.
   */
  lemma HighlightClasses(wordCount: nat, current: int)
    ensures Highlighted(WordMarks(wordCount, current))
            == if 0 <= current < wordCount then {current} else {}
    ensures |Highlighted(WordMarks(wordCount, current))| == 1 <==> 0 <= current < wordCount
    ensures forall i :: i in Played(WordMarks(wordCount, current)) <==> 0 <= i < wordCount && i < current
    ensures forall i :: 0 <= i < wordCount ==>
              !(WordMarks(wordCount, current)[i].highlighted && WordMarks(wordCount, current)[i].played)
  {
    var h := Highlighted(WordMarks(wordCount, current));
    if 0 <= current < wordCount {
      assert current in h;
      assert h == {current};
    } else {
      assert h == {};
    }
  }

  class StoryPlayer {
    const story: string
    const language: string
    /** `'speechSynthesis' in window` (line 23). */
    const speechSupported: bool
    const engine: SpeechEngine
    /** The `words` state, derived from the story by the effect of lines 16-20. */
    const words: seq<string>

    var isPlaying: bool
    var isPaused: bool
    var currentWordIndex: int
    var wordIndexRef: int
    var rate: real
    var pitch: real
    /** `utteranceRef.current`. */
    var utterance: Option<Utterance>

    /**
     * The word list is that of the story, the highlight index is -1 or a
     * word of it, and the ref mirrors the state.
     */
    ghost predicate Valid()
      reads this
    {
      && words == Words(story)
      && -1 <= currentWordIndex < |words|
      && wordIndexRef == currentWordIndex
    }

    /** Mounting the component (lines 5-20). */
    constructor (story: string, language: string, speechSupported: bool, engine: SpeechEngine)
      ensures Valid()
      ensures this.story == story && this.language == language
      ensures this.speechSupported == speechSupported && this.engine == engine
      ensures !isPlaying && !isPaused && currentWordIndex == -1
      ensures rate == InitialRate && pitch == InitialPitch && utterance == None
    {
      this.story := story;
      this.language := language;
      this.speechSupported := speechSupported;
      this.engine := engine;
      words := Words(story);
      isPlaying, isPaused := false, false;
      currentWordIndex, wordIndexRef := -1, -1;
      rate, pitch := InitialRate, InitialPitch;
      utterance := None;
    }

    /** The Play button is shown instead of Pause (line 205). */
    function ShowsPlayButton(): bool
      reads this
    {
      !isPlaying || isPaused
    }

    /** The Stop button is enabled (line 214). */
    function StopEnabled(): (r: bool)
      reads this
      ensures !r ==> ShowsPlayButton()
    {
      isPlaying
    }

    /** The rate and pitch sliders are enabled (lines 279 and 294). */
    function SlidersEnabled(): (r: bool)
      reads this
      ensures r == ShowsPlayButton()
    {
      !(isPlaying && !isPaused)
    }

    /** The classes of the rendered word spans (lines 303-308). */
    function Marks(): (r: seq<WordMark>)
      reads this
      ensures |r| == |words|
    {
      WordMarks(|words|, currentWordIndex)
    }

    /**
     * In a valid state the rendered spans highlight the current word, or
     * none before the first boundary; the played spans are the earlier words.
     */
    lemma HighlightsCurrentWord()
      requires Valid()
      ensures Highlighted(Marks()) == if currentWordIndex == -1 then {} else {currentWordIndex}
      ensures forall i :: i in Played(Marks()) <==> 0 <= i < currentWordIndex
    {
      HighlightClasses(|words|, currentWordIndex);
    }

    /**
     * `speakStory` (lines 22-148): cancel whatever is playing, build an
     * utterance from the story with the current rate and pitch, submit it.
     * Without speech support it only alerts, which changes nothing here.
     */
    method SpeakStory(voices: seq<Voice>)
      requires Valid()
      modifies this, engine
      ensures Valid()
      ensures speechSupported ==>
                var u := StoryUtterance(story, language, voices, old(rate), old(pitch));
                && engine.log == old(engine.log) + [Command.Cancel, Command.Speak(u)]
                && utterance == Some(u)
                && isPlaying && !isPaused
      ensures !speechSupported ==>
                && engine.log == old(engine.log) && utterance == old(utterance)
                && isPlaying == old(isPlaying) && isPaused == old(isPaused)
      ensures currentWordIndex == old(currentWordIndex)
      ensures rate == old(rate) && pitch == old(pitch)
    {
      if speechSupported {
        var u := BuildUtterance(story, language, voices, rate, pitch);
        SubmitUtterance(u);
      }
    }

    /** Lines 25, 28 and 142-144 of `speakStory`: cancel, remember the utterance, speak it. */
    method SubmitUtterance(u: Utterance)
      requires Valid()
      modifies this, engine
      ensures Valid()
      ensures engine.log == old(engine.log) + [Command.Cancel, Command.Speak(u)]
      ensures utterance == Some(u) && isPlaying && !isPaused
      ensures currentWordIndex == old(currentWordIndex)
      ensures rate == old(rate) && pitch == old(pitch)
    {
      ghost var log0 := engine.log;
      engine.Cancel();
      utterance := Some(u);
      engine.Speak(u);
      assert engine.log == log0 + [Command.Cancel, Command.Speak(u)] by {
        assert log0 + [Command.Cancel] + [Command.Speak(u)] == log0 + [Command.Cancel, Command.Speak(u)];
      }
      isPlaying := true;
      isPaused := false;
    }

    /** `handlePlay` (lines 150-157): resume when paused, otherwise start afresh. */
    method HandlePlay(voices: seq<Voice>)
      requires Valid()
      modifies this, engine
      ensures Valid()
      ensures old(isPaused) ==>
                && engine.log == old(engine.log) + [Command.Resume]
                && !isPaused && isPlaying == old(isPlaying) && utterance == old(utterance)
      ensures !old(isPaused) && speechSupported ==>
                var u := StoryUtterance(story, language, voices, old(rate), old(pitch));
                && engine.log == old(engine.log) + [Command.Cancel, Command.Speak(u)]
                && utterance == Some(u)
                && isPlaying && !isPaused
                && !ShowsPlayButton() && StopEnabled() && !SlidersEnabled()
      ensures !old(isPaused) && !speechSupported ==>
                && engine.log == old(engine.log) && utterance == old(utterance)
                && isPlaying == old(isPlaying) && isPaused == old(isPaused)
      ensures currentWordIndex == old(currentWordIndex)
      ensures rate == old(rate) && pitch == old(pitch)
    {
      if isPaused {
        engine.Resume();
        isPaused := false;
      } else {
        SpeakStory(voices);
      }
    }

    /** `handlePause` (lines 159-164); `engineSpeaking` is `speechSynthesis.speaking`. */
    method HandlePause(engineSpeaking: bool)
      requires Valid()
      modifies this, engine
      ensures Valid()
      ensures engineSpeaking ==> engine.log == old(engine.log) + [Command.Pause] && isPaused
      ensures !engineSpeaking ==> engine.log == old(engine.log) && isPaused == old(isPaused)
      ensures isPlaying == old(isPlaying) && currentWordIndex == old(currentWordIndex)
      ensures utterance == old(utterance) && rate == old(rate) && pitch == old(pitch)
    {
      if engineSpeaking {
        engine.Pause();
        isPaused := true;
      }
    }

    /** `handleStop` (lines 166-172), from any state. */
    method HandleStop()
      requires Valid()
      modifies this, engine
      ensures Valid()
      ensures engine.log == old(engine.log) + [Command.Cancel]
      ensures !isPlaying && !isPaused && currentWordIndex == -1 && wordIndexRef == -1
      ensures utterance == old(utterance) && rate == old(rate) && pitch == old(pitch)
    {
      engine.Cancel();
      isPlaying := false;
      isPaused := false;
      currentWordIndex := -1;
      wordIndexRef := -1;
    }

    /** `utterance.onboundary` (lines 120-127). */
    method OnBoundary(event: BoundaryEvent)
      requires Valid()
      modifies this
      ensures Valid()
      ensures event.name == "word" ==>
                currentWordIndex == BoundaryWordIndex(story, event.charIndex, event.charLength)
      ensures event.name != "word" ==>
                currentWordIndex == old(currentWordIndex) && wordIndexRef == old(wordIndexRef)
      ensures isPlaying == old(isPlaying) && isPaused == old(isPaused)
      ensures utterance == old(utterance) && rate == old(rate) && pitch == old(pitch)
    {
      if event.name == "word" {
        var index := BoundaryWordIndex(story, event.charIndex, event.charLength);
        wordIndexRef := index;
        currentWordIndex := index;
      }
    }

    /** `utterance.onend` (lines 129-134). */
    method OnEnd()
      requires Valid()
      modifies this
      ensures Valid()
      ensures !isPlaying && !isPaused && currentWordIndex == -1 && wordIndexRef == -1
      ensures utterance == old(utterance) && rate == old(rate) && pitch == old(pitch)
    {
      isPlaying := false;
      isPaused := false;
      currentWordIndex := -1;
      wordIndexRef := -1;
    }

    /** `utterance.onerror` (lines 136-140): the highlight stays where it was. */
    method OnError()
      requires Valid()
      modifies this
      ensures Valid()
      ensures !isPlaying && !isPaused
      ensures currentWordIndex == old(currentWordIndex) && wordIndexRef == old(wordIndexRef)
      ensures utterance == old(utterance) && rate == old(rate) && pitch == old(pitch)
    {
      isPlaying := false;
      isPaused := false;
    }

    /** The speed slider's `onChange` (line 278): only the next utterance sees it. */
    method SetRate(r: real)
      requires Valid()
      modifies this
      ensures Valid()
      ensures rate == r && pitch == old(pitch) && utterance == old(utterance)
      ensures isPlaying == old(isPlaying) && isPaused == old(isPaused)
      ensures currentWordIndex == old(currentWordIndex)
    {
      rate := r;
    }

    /** The pitch slider's `onChange` (line 293): only the next utterance sees it. */
    method SetPitch(p: real)
      requires Valid()
      modifies this
      ensures Valid()
      ensures pitch == p && rate == old(rate) && utterance == old(utterance)
      ensures isPlaying == old(isPlaying) && isPaused == old(isPaused)
      ensures currentWordIndex == old(currentWordIndex)
    {
      pitch := p;
    }
  }

  /**
   * Play, Pause, Play: the second Play resumes the same utterance, sends no
   * second `speak`, and leaves the highlight where the boundary put it.
   */
  method PlayPausePlay(story: string, voices: seq<Voice>, event: BoundaryEvent)
    returns (index: int, playing: bool, paused: bool, current: Option<Utterance>,
             ghost log: seq<Command>)
    ensures playing && !paused
    ensures current == Some(StoryUtterance(story, "english", voices, InitialRate, InitialPitch))
    ensures log == [Command.Cancel, Command.Speak(current.value), Command.Pause, Command.Resume]
    ensures index == if event.name == "word"
                     then BoundaryWordIndex(story, event.charIndex, event.charLength) else -1
  {
    var engine := new SpeechEngine();
    var player := new StoryPlayer(story, "english", true, engine);
    player.HandlePlay(voices);
    var u := StoryUtterance(story, "english", voices, InitialRate, InitialPitch);
    assert engine.log == [Command.Cancel, Command.Speak(u)];
    player.OnBoundary(event);
    var before := player.currentWordIndex;
    player.HandlePause(true);
    player.HandlePlay(voices);
    assert engine.log == [Command.Cancel, Command.Speak(u), Command.Pause, Command.Resume];
    assert player.currentWordIndex == before;
    index, playing, paused, current := player.currentWordIndex, player.isPlaying, player.isPaused, player.utterance;
    log := engine.log;
  }

  /**
   * A rate change after Play leaves the running utterance at the old rate;
   * the next fresh Play uses the new one.
   */
  method RateIsSnapshotted(story: string, voices: seq<Voice>, r: real)
    returns (running: Option<Utterance>, next: Option<Utterance>)
    ensures running.Some? && running.value.rate == InitialRate
    ensures next.Some? && next.value.rate == r
  {
    var engine := new SpeechEngine();
    var player := new StoryPlayer(story, "english", true, engine);
    player.HandlePlay(voices);
    player.SetRate(r);
    running := player.utterance;
    player.HandleStop();
    player.HandlePlay(voices);
    next := player.utterance;
  }

}
