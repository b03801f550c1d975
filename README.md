# AudioBook Story Teller: a Dafny model of its core

AudioBook Story Teller is a React web application. It asks Google's Gemini
model for a short story in a chosen genre and language (English or Hindi).
It then reads the story aloud with the browser's speech synthesis and
highlights each word as it is spoken. One secret key unlocks it.

This project models the core of that application and proves properties of it:

- **Playback controller** (`StoryPlayer.jsx`), module `Player`.
  - A class `StoryPlayer` holds the playback state: `isPlaying`, `isPaused`,
    `currentWordIndex`, the mirror `wordIndexRef`, rate, pitch and the current
    utterance.
  - Its methods are the Play, Pause and Stop handlers, `speakStory`, and the
    utterance callbacks `onboundary`, `onend` and `onerror`.
  - The speech engine is a class `SpeechEngine` (module `Speech`). It keeps a
    ghost log of the commands it receives: `cancel`, `speak`, `pause`,
    `resume`. Its `speaking` flag is an input of `HandlePause`.
- **Word split and boundary mapping** (`StoryPlayer.jsx` lines 18 and
  120-126), module `Tokenizer`.
  - JavaScript's `split(/(\s+)/)` and `split(/\s+/)` are modelled literally.
  - The word list of line 18 (the split with the whitespace-only pieces
    filtered out) and the non-empty pieces of line 123 are both proved equal
    to an independent scanner of maximal non-whitespace runs.
  - The word index of a `boundary` event is proved bounded, monotone, and
    located inside the word being spoken.
- **Voice chooser** (`StoryPlayer.jsx` lines 36-106), module `Voices`.
  - The English preference loop is a method. It is proved equal to a
    first-match function over the ordered preference list.
  - For Hindi, a voice with a Hindi locale is preferred over one with a Hindi
    name.
- **Highlight classes** (`StoryPlayer.jsx` lines 303-308): `Player.WordMarks`.
- **Gemini service** (`geminiService.js`), module `GeminiService`.
  - The prompt table and its fallback.
  - The missing-key guard.
  - The empty-response rule.
  - The classification of errors into user-facing messages.
  - The model's reply is a parameter.
- **Generator screen** (`StoryGenerator.jsx`), module `Generator`.
  - The genre list and the genre-name cleaner.
  - A class `StoryGenerator` with the generate, reset and language-change
    handlers. Generation is split at its `await` into `BeginGeneration` and
    `FinishGeneration`. It is also composed with the service as
    `HandleGenerateStory`.
- **Unlock screen** (`AuthScreen.jsx`), module `Auth`: a class `AuthScreen`
  whose `HandleSubmit` has three outcomes.

These JavaScript details are written out explicitly:

- `\s` and `trim` use the same set of 25 code points (`Text.IsSpace`).
- `substring(0, end)` clamps `end`, and reads `NaN` as 0. `NaN` arises when an
  engine omits `charLength`.
- `!API_KEY` and `!correctKey` reject every falsy value, the empty string included
  (`Text.Truthy`). The two `||` fallbacks, on a prompt and on an error message,
  are written as tests for the empty string in `GeminiService.PromptFor` and
  `Generator.StoryGenerator.FinishGeneration`.
- `find` returns the first match (`Text.FindIndex`).

Some behaviour of the code is easy to get wrong, and the model keeps it as
written:

- `onerror` only clears `isPlaying` and `isPaused`. The highlight index stays
  where it was.
- Play while already speaking cancels and restarts the story.
- The setters for rate and pitch always take the value. During playback the
  sliders are disabled, but the setters do not check it.
- A blank reply throws "Generated story is empty" inside the `try`. The
  `catch` then rethrows it as the generic failure.
- For Hindi, the first voice with a Hindi locale is chosen. A voice with a
  Hindi name is chosen only when no voice has a Hindi locale.

## Model

| member | source | states |
|---|---|---|
| Text.IsSpace | src/components/StoryPlayer.jsx:18 | the `\s` class: the 25 ECMAScript whitespace and line-terminator code points |
| Text.Trim | src/components/StoryPlayer.jsx:18 | `trim()` yields the empty string exactly when the text is all whitespace |
| Text.LowerStr | src/components/StoryPlayer.jsx:45-47 | `toLowerCase` keeps the length and lowers each character |
| Text.Lower | src/components/StoryPlayer.jsx:45-47 | an upper-case ASCII letter becomes its lower-case letter (code point plus 32), the result is never an upper-case ASCII letter, and any other character is unchanged |
| Text.StartsWith | src/components/StoryPlayer.jsx:89 | `startsWith`: the prefix is no longer than the text and equals its first characters |
| Text.Contains | src/services/geminiService.js:58 | `includes`: the text has the substring at some offset |
| Text.Truthy | src/services/geminiService.js:35 | the `!API_KEY` test, and the same `!correctKey` test of AuthScreen.jsx line 12: a key counts only when it is present and non-empty |
| Text.Filter | src/components/StoryPlayer.jsx:18 | `filter` keeps only elements passing the test, each taken from the input, never more than the input |
| Text.FilterAppend | src/components/StoryGenerator.jsx:97 | filtering distributes over concatenation, so kept elements stay in order |
| Text.FindIndex | src/components/StoryPlayer.jsx:43-49 | `find` returns the first element passing the test, or none when no element passes |
| Tokenizer.Split | src/components/StoryPlayer.jsx:18 | the regex split always yields at least one piece |
| Tokenizer.Words | src/components/StoryPlayer.jsx:18 | every word is a fragment of the capture-group split with content left after `trim`; `WordsAreRuns` gives the exact list |
| Tokenizer.SpokenWordCount | src/components/StoryPlayer.jsx:123 | the count is the number of maximal non-whitespace runs of the spoken text |
| Tokenizer.SplitRoundTrip | src/components/StoryPlayer.jsx:18 | with the capture group, joining the pieces gives back the story |
| Tokenizer.SplitShape | src/components/StoryPlayer.jsx:18 | the pieces alternate: a whitespace-free piece, a non-empty whitespace run, and so on, ending on a whitespace-free piece; only the first and the last whitespace-free piece can be empty |
| Tokenizer.RunsAreWords | src/components/StoryPlayer.jsx:18 | the reference scanner yields non-empty, whitespace-free words |
| Tokenizer.WordsAreRuns | src/components/StoryPlayer.jsx:18 | the word list is exactly the maximal non-whitespace runs of the story, in text order |
| Tokenizer.SpokenWordCountIsRuns | src/components/StoryPlayer.jsx:123 | the count of non-empty pieces of `split(/\s+/)` is the number of runs |
| Tokenizer.RunsOfPrefix | src/components/StoryPlayer.jsx:122-123 | the words of a prefix are the story's words, except that the last may be cut short |
| Tokenizer.SpokenWordCountMonotone | src/components/StoryPlayer.jsx:122-123 | the word count of a prefix grows with the prefix and never exceeds the story's word count |
| Tokenizer.SpokenEnd | src/components/StoryPlayer.jsx:122 | the offset `substring` uses lies in the story: `charIndex + charLength` when that is inside it, 0 when it is negative or `charLength` is missing, the story's length when it is past the end |
| Tokenizer.BoundaryWordIndex | src/components/StoryPlayer.jsx:120-126 | the index is the word count of the spoken prefix minus one and lies in [-1, words-1] |
| Tokenizer.BoundaryWordIndexMonotone | src/components/StoryPlayer.jsx:122-125 | a later end offset never gives a smaller index |
| Tokenizer.BoundaryWordIndexLocatesWord | src/components/StoryPlayer.jsx:122-125 | a non-negative index names the word the prefix ends in; every earlier word is complete |
| Tokenizer.BoundaryWithoutLength | src/components/StoryPlayer.jsx:122 | an event without `charLength` gives index -1 |
| Tokenizer.ThreeWordBoundaries | src/components/StoryPlayer.jsx:120-126 | for three words separated by single spaces, boundaries ending each word give 0, 1 and 2 |
| Tokenizer.QuickFoxBoundaries | src/components/StoryPlayer.jsx:120-126 | "the quick fox" with (0,3), (4,5), (10,3) gives 0, 1, 2 |
| Voices.FirstOffered | src/components/StoryPlayer.jsx:87-92 | the first preferred name some voice matches, with no earlier name matched; none when no name is matched |
| Voices.At | src/components/StoryPlayer.jsx:88 | the found voice, present exactly when a position was found |
| Voices.ChooseEnglishVoice | src/components/StoryPlayer.jsx:72-101 | the preference loop with `break`, then the female/woman fallback, computes the first-match choice |
| Voices.ChooseVoice | src/components/StoryPlayer.jsx:36-106 | the chosen voice is the Hindi rule's for Hindi and the English rule's otherwise |
| Voices.MatchesPreferred | src/components/StoryPlayer.jsx:89 | the test of the preference loop: the name includes the preferred name and the lang starts with "en" |
| Voices.IsFallbackEnglish | src/components/StoryPlayer.jsx:96-100 | the fallback test: the lower-cased name includes "female" or "woman" and the lang starts with "en" |
| Voices.HasHindiLocale | src/components/StoryPlayer.jsx:44-48 | the locale test: a non-empty lang whose lower-cased form includes "hi-in" or "hi_in" or starts with "hi" |
| Voices.HasHindiName | src/components/StoryPlayer.jsx:52-57 | the name test: the lower-cased name includes one of the five Hindi name fragments |
| Voices.UpperCaseHindiLocale | src/components/StoryPlayer.jsx:44-48 | the locale test ignores case: any tag starting with "HI" passes it |
| Voices.CapitalisedHindiName | src/components/StoryPlayer.jsx:53-57 | the name test ignores case: any name containing "Hindi" passes it |
| Voices.VoiceFor | src/components/StoryPlayer.jsx:36-106 | the result is none or one of the installed voices; for any language but Hindi its lang starts with "en" |
| Voices.HindiVoice | src/components/StoryPlayer.jsx:43-59 | the Hindi choice is none or an installed voice with a Hindi locale or a Hindi name |
| Voices.EnglishVoice | src/components/StoryPlayer.jsx:87-101 | the English choice is none or an installed voice whose lang starts with "en" |
| Voices.EarlierPreferenceWins | src/components/StoryPlayer.jsx:87-92 | a voice matching an earlier preferred name beats any later one |
| Voices.HindiLocaleBeatsName | src/components/StoryPlayer.jsx:43-59 | if any voice has a Hindi locale, the first such voice is chosen, whatever the names |
| Voices.HindiNameFallback | src/components/StoryPlayer.jsx:52-59 | without a Hindi locale, a voice is chosen exactly when some voice has a Hindi name, and it has one |
| Voices.TwoVoiceScenario | src/components/StoryPlayer.jsx:36-106 | with a Hindi and an English voice installed, each language gets its own |
| Speech.SpeechEngine.constructor | src/components/StoryPlayer.jsx:25 | a fresh engine has received no command |
| Speech.SpeechEngine.Cancel | src/components/StoryPlayer.jsx:25 | `cancel` is appended to the log |
| Speech.SpeechEngine.Speak | src/components/StoryPlayer.jsx:142 | `speak(u)` is appended to the log |
| Speech.SpeechEngine.Pause | src/components/StoryPlayer.jsx:161 | `pause` is appended to the log |
| Speech.SpeechEngine.Resume | src/components/StoryPlayer.jsx:152 | `resume` is appended to the log |
| Player.LangTag | src/components/StoryPlayer.jsx:38-69 | the tag is "hi-IN" exactly for Hindi, and "en-US" otherwise |
| Player.StoryUtterance | src/components/StoryPlayer.jsx:27-117 | the utterance holds the story, its language tag, the given rate and pitch and volume 1; its voice, if any, is an installed one, English for any language but Hindi |
| Player.WordMarks | src/components/StoryPlayer.jsx:303-308 | one mark per word |
| Player.HighlightClasses | src/components/StoryPlayer.jsx:303-308 | exactly one word is highlighted iff 0 <= index < words; the played words are exactly those below the index; none is both |
| Player.BuildUtterance | src/components/StoryPlayer.jsx:27-117 | the utterance holds the story, the language tag, the voice the selection rules choose (none when they choose none), the given rate and pitch, and volume 1 |
| Player.StoryPlayer.constructor | src/components/StoryPlayer.jsx:5-20 | stopped, index -1, rate 0.95, pitch 1.0, no utterance, words taken from the story |
| Player.StoryPlayer.ShowsPlayButton | src/components/StoryPlayer.jsx:205 | the Play button shows unless speech is running unpaused |
| Player.StoryPlayer.StopEnabled | src/components/StoryPlayer.jsx:214 | when Stop is disabled, the Play button is shown |
| Player.StoryPlayer.SlidersEnabled | src/components/StoryPlayer.jsx:279-294 | the sliders are enabled exactly when the Play button is shown |
| Player.StoryPlayer.Marks | src/components/StoryPlayer.jsx:303-308 | one span mark per word of the story |
| Player.StoryPlayer.HighlightsCurrentWord | src/components/StoryPlayer.jsx:303-308 | in a valid state, the spans highlight the current word (none at index -1), and the played spans are the earlier words |
| Player.StoryPlayer.SubmitUtterance | src/components/StoryPlayer.jsx:25-144 | `cancel` then `speak(u)` are appended to the log, `u` becomes the current utterance, playing and unpaused; index, rate and pitch unchanged |
| Player.StoryPlayer.SpeakStory | src/components/StoryPlayer.jsx:22-148 | `cancel` then exactly one `speak` of an utterance holding the story, its language tag, the chosen voice and the rate and pitch of that moment; then playing and not paused; no change without speech support |
| Player.StoryPlayer.HandlePlay | src/components/StoryPlayer.jsx:150-157 | when paused, only `resume`, unpaused, same utterance and index; otherwise as `SpeakStory`, after which Pause is shown, Stop enabled and the sliders disabled |
| Player.StoryPlayer.HandlePause | src/components/StoryPlayer.jsx:159-164 | only while the engine speaks: `pause` and paused; `isPlaying` and the index unchanged |
| Player.StoryPlayer.HandleStop | src/components/StoryPlayer.jsx:166-172 | from any state: `cancel`, stopped, unpaused, index and ref -1 |
| Player.StoryPlayer.OnBoundary | src/components/StoryPlayer.jsx:120-127 | a `word` event sets the index and the ref to the boundary word index; any other event changes nothing |
| Player.StoryPlayer.OnEnd | src/components/StoryPlayer.jsx:129-134 | stopped, unpaused, index and ref -1 |
| Player.StoryPlayer.OnError | src/components/StoryPlayer.jsx:136-140 | stopped and unpaused; the index stays |
| Player.StoryPlayer.SetRate | src/components/StoryPlayer.jsx:278 | only the rate changes; the running utterance keeps its own |
| Player.StoryPlayer.SetPitch | src/components/StoryPlayer.jsx:293 | only the pitch changes; the running utterance keeps its own |
| Player.PlayPausePlay | src/components/StoryPlayer.jsx:150-164 | Play, boundary, Pause, Play: the engine receives exactly `cancel`, one `speak`, `pause`, `resume`; playing, and the highlight stays where the boundary put it |
| Player.RateIsSnapshotted | src/components/StoryPlayer.jsx:115-116 | a rate change during playback reaches only the next fresh utterance |
| GeminiService.PromptFor | src/services/geminiService.js:44 | a pair present in the table yields its entry; any other pair yields the English fantasy prompt |
| GeminiService.PromptIsTableEntry | src/services/geminiService.js:44 | the prompt is always one of the non-empty table strings |
| GeminiService.PromptTableKeys | src/services/geminiService.js:11-32 | the table has exactly the languages english and hindi |
| GeminiService.PromptTableGenres | src/services/geminiService.js:11-32 | both languages have the same eight genre ids |
| GeminiService.PromptTableNonEmpty | src/services/geminiService.js:11-32 | every prompt is non-empty |
| GeminiService.Classify | src/services/geminiService.js:58-64 | "API key" gives the invalid-key message, and is tested first; otherwise "quota" gives the quota message; otherwise, or with no message, the generic failure |
| GeminiService.Settle | src/services/geminiService.js:46-64 | a story is returned exactly when the reply text is not blank, and then it is that text; a rejected call throws its classified message; every thrown message is one of the three user-facing ones |
| GeminiService.GenerateStory | src/services/geminiService.js:34-66 | without a key, the configuration error and no request; otherwise the table prompt is sent and the outcome is how the `try` settles; a story is returned exactly when there is a key and the reply is not blank, and then it is the reply; every other outcome with a key is one of the three classified messages |
| GeminiService.BlankReplyIsGenericFailure | src/services/geminiService.js:50-64 | a blank reply surfaces as the generic failure, not as "Generated story is empty" |
| GeminiService.MissingKeyWouldReadAsInvalid | src/services/geminiService.js:35-37 | the configuration message mentions "API key", so only its place outside the `try` keeps it from becoming the invalid-key message |
| Generator.CleanName | src/components/StoryGenerator.jsx:97 | the cleaned name holds only ASCII letters and whitespace, taken from the name |
| Generator.CleanNameAppend | src/components/StoryGenerator.jsx:97 | cleaning commutes with concatenation, so kept characters keep their order |
| Generator.CleanNameKeepsKept | src/components/StoryGenerator.jsx:97 | a name of kept characters is unchanged |
| Generator.CleanNameDropsOthers | src/components/StoryGenerator.jsx:97 | a name of removed characters cleans to nothing |
| Generator.CleanNameIdempotent | src/components/StoryGenerator.jsx:97 | cleaning twice is cleaning once |
| Generator.CleanPieces | src/components/StoryGenerator.jsx:97 | emoji, letters, punctuation, letters clean to the two letter parts |
| Generator.SciFiLabel | src/components/StoryGenerator.jsx:8 | the Sci-Fi button reads " SciFi" |
| Generator.GenreOrder | src/components/StoryGenerator.jsx:6-15 | eight genres, in the order fantasy, scifi, mystery, romance, horror, adventure, comedy, thriller, each label starting with its emoji and a space |
| Generator.GenresHavePrompts | src/components/StoryGenerator.jsx:6-15 | every genre id has a prompt in both languages, so the fallback is unreachable from the screen |
| Generator.ThrownMessageIsNonEmpty | src/components/StoryGenerator.jsx:38 | every error the service throws has a non-empty message |
| Generator.StoryGenerator.constructor | src/components/StoryGenerator.jsx:18-22 | no genre, English, no story, not loading, no error, no call |
| Generator.StoryGenerator.PlayerShown | src/components/StoryGenerator.jsx:64 | the player replaces the generator exactly when the story is non-empty |
| Generator.StoryGenerator.GenerateDisabled | src/components/StoryGenerator.jsx:108 | Generate is disabled while loading or with no genre selected |
| Generator.StoryGenerator.SelectGenre | src/components/StoryGenerator.jsx:93 | only the selected genre changes |
| Generator.StoryGenerator.BeginGeneration | src/components/StoryGenerator.jsx:24-35 | without a genre: the "select a genre" error, no call, loading and story unchanged; otherwise loading, error and story cleared, one call with the genre and language |
| Generator.StoryGenerator.FinishGeneration | src/components/StoryGenerator.jsx:36-41 | success sets the story; failure sets the message or the default text; loading ends either way |
| Generator.StoryGenerator.HandleGenerateStory | src/components/StoryGenerator.jsx:24-42 | with a genre: one call, loading ends, and exactly one of story and error is set; a story is the service's non-blank text and shows the player; an error is the service's message |
| Generator.StoryGenerator.HandleReset | src/components/StoryGenerator.jsx:44-48 | story, genre and error cleared, language kept; the generator is shown with Generate disabled |
| Generator.StoryGenerator.HandleLanguageChange | src/components/StoryGenerator.jsx:50-53 | language set and genre cleared; Generate disabled |
| Auth.Decide | src/components/AuthScreen.jsx:12-23 | not configured iff the key is absent or empty; unlocked iff configured and an exact match; rejected otherwise |
| Auth.EmptyEntryNeverUnlocks | src/components/AuthScreen.jsx:12-19 | an empty entry never unlocks, even against an empty key |
| Auth.UnlockingEntryIsUnique | src/components/AuthScreen.jsx:17-19 | at most one entry unlocks |
| Auth.AuthScreen.constructor | src/components/AuthScreen.jsx:5-6 | empty entry, no error, no authentication |
| Auth.AuthScreen.EnterKey | src/components/AuthScreen.jsx:37 | only the entry changes |
| Auth.AuthScreen.HandleSubmit | src/components/AuthScreen.jsx:8-24 | not configured: the configuration error, and the entry is kept; match: error cleared and one `onAuthenticate(true)`; mismatch: the invalid-key error and the entry cleared; `onAuthenticate` is called only with true, and only on a match |
| Auth.WrongThenRetry | src/components/AuthScreen.jsx:20-23 | a wrong entry, submitted twice, never unlocks and leaves the invalid-key error |

## Left out

- `src/App.jsx` is not part of this model. It holds the unlocked flag, mirrored to `sessionStorage`, and switches views: browser persistence, with no decision logic.
- Speech engine internals are not modelled: `SpeechSynthesisUtterance`, voice loading through `getVoices` and `onvoiceschanged` (StoryPlayer.jsx lines 175-194), and the asynchronous delivery of events. The engine is a command log, `speaking` is a parameter, and each callback is a method that can be called at any time.
- The `cancel` on unmount (StoryPlayer.jsx lines 196-198) and the Show Voices panel (lines 220-265) are left out. They are rendering or teardown and change no modelled state.
- Player.StoryPlayer.HandlePause and Player.StoryPlayer.HandleStop: the case where `window.speechSynthesis` is missing and the handlers throw is not modelled. The model assumes an engine is present.
- Player.StoryPlayer.SpeakStory: the `alert` for missing speech support is left out. It changes no state.
- All `console` logging is left out.
- Player.StoryPlayer.constructor: the word list is computed at construction. The effect of lines 16-20 runs that computation after the first render, when `words` is briefly empty.
- Rate and pitch are opaque `real` values. The float handling, `parseFloat`, `toFixed` and the slider ranges are left out.
- Text.IsSpace and Text.Lower: strings are sequences of code points, not UTF-16 units. `Lower` changes ASCII letters only, while `toLowerCase` covers all of Unicode. The mis-encoded Hindi voice name of StoryPlayer.jsx line 53 is kept as written. It contains the upper-case letters U+00C4 and U+00C7, so under the real `toLowerCase` no lower-cased name can ever include it; under the ASCII-only `Lower` of the model a voice whose name is that string does match it.
- Tokenizer.SpokenEnd and Tokenizer.BoundaryWordIndex: `charIndex` and `charLength` count UTF-16 code units, while the model counts code points. When a character outside the Basic Multilingual Plane, such as an emoji, comes before a boundary, the source's `substring` ends at a different character than the model's prefix does, and the highlighted word can differ.
- GeminiService.GenerateStory: the `GoogleGenerativeAI` client, the model name and the `await` chain are replaced by the reply, given as a parameter. The API key, read from the build environment, is a parameter too. So is the secret key of AuthScreen.jsx.
- GeminiService.GenerateStory: the `language = 'english'` default parameter is not modelled. Its only caller always passes a language.
- GeminiService.Classify: an error whose `message` is not a string is not modelled.
- GeminiService.PromptFor: keys inherited from JavaScript's object prototype (such as `constructor`) are not modelled. The table is a plain map.
- Generator.StoryGenerator.HandleGenerateStory: it runs as one atomic step, with no second call between its halves. React state batching is out of scope. Disabled buttons are not modelled as preconditions, since the handlers do not check them.
- JSX markup and CSS are left out, apart from the view predicates for the Play/Pause button (StoryPlayer.jsx line 205), the Stop button (line 214), the sliders (lines 279 and 294), the player/generator switch and the Generate button (StoryGenerator.jsx lines 64 and 108).
