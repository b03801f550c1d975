/**
 * geminiService.js: the prompt table, the call to the Gemini model, and the
 * translation of every failure into one of a few user-facing messages.
 * The network call is replaced by its reply, given as a parameter; the API
 * key, read from the build environment at load time, is a parameter too.
 */
module GeminiService {
  import opened Wrappers
  import opened Text

  /** The literal thrown before any request when no key is configured (line 36). */
  // Proof note: the literal is written as three concatenated pieces so that
  // `AppearsInMiddle` can show that it contains "API key".
  const MissingKeyMessage: string :=
    "Gemini " + "API key"
    + (" is not configured. " + "Please set VITE_GEMINI_API_KEY in your environment variables.")
  /** The literal thrown inside the `try` when the reply text is blank (line 51). */
  const EmptyStoryMessage: string := "Generated story is empty"
  /** The literals the `catch` rethrows (lines 59, 61 and 63). */
  const InvalidKeyMessage: string := "Invalid API key. Please check your Gemini API configuration."
  const QuotaMessage: string := "API quota exceeded. Please try again later."
  const GenericFailureMessage: string := "Failed to generate story. Please try again."

  /** `genrePrompts` (lines 11-32): language, then genre id, to prompt. */
  const GenrePrompts: map<string, map<string, string>> := map[
    "english" := map[
      "fantasy" := "Write a captivating fantasy short story with magical elements, mythical creatures, and an enchanting world. Keep it around 500 - 600 words.",
      "scifi" := "Write an exciting science fiction short story set in the future with advanced technology and space exploration. Keep it around 500 words.",
      "mystery" := "Write an intriguing mystery short story with suspense, clues, and an unexpected twist. Keep it around 500 - 600 words.",
      "romance" := "Write a heartwarming romance short story about two people falling in love with emotional depth. Keep it around 500 - 600 words.",
      "horror" := "Write a chilling horror short story that creates suspense and fear with a spooky atmosphere. Keep it around 500 - 600 words.",
      "adventure" := "Write an thrilling adventure short story with exploration, challenges, and exciting discoveries. Keep it around 500 - 600 words.",
      "comedy" := "Write a hilarious comedy short story with funny situations and witty dialogue. Keep it around 500 - 600 words.",
      "thriller" := "Write an intense thriller short story with high stakes, tension, and adrenaline-pumping action. Keep it around 500 - 600 words."
    ],
    "hindi" := map[
      "fantasy" := "\U{91C}\U{93E}\U{926}\U{941}\U{908} \U{924}\U{924}\U{94D}\U{935}\U{94B}\U{902}, \U{92A}\U{94C}\U{930}\U{93E}\U{923}\U{93F}\U{915} \U{92A}\U{94D}\U{930}\U{93E}\U{923}\U{93F}\U{92F}\U{94B}\U{902} \U{914}\U{930} \U{92E}\U{902}\U{924}\U{94D}\U{930}\U{92E}\U{941}\U{917}\U{94D}\U{927} \U{915}\U{930} \U{926}\U{947}\U{928}\U{947} \U{935}\U{93E}\U{932}\U{940} \U{926}\U{941}\U{928}\U{93F}\U{92F}\U{93E} \U{915}\U{947} \U{938}\U{93E}\U{925} \U{90F}\U{915} \U{906}\U{915}\U{930}\U{94D}\U{937}\U{915} \U{92B}\U{902}\U{924}\U{93E}\U{938}\U{940} \U{932}\U{918}\U{941} \U{915}\U{939}\U{93E}\U{928}\U{940} \U{939}\U{93F}\U{902}\U{926}\U{940} \U{92E}\U{947}\U{902} \U{932}\U{93F}\U{916}\U{947}\U{902}\U{964} \U{907}\U{938}\U{947} 500-600 \U{936}\U{92C}\U{94D}\U{926}\U{94B}\U{902} \U{915}\U{947} \U{906}\U{938}\U{92A}\U{93E}\U{938} \U{930}\U{916}\U{947}\U{902}\U{964}",
      "scifi" := "\U{92D}\U{935}\U{93F}\U{937}\U{94D}\U{92F} \U{92E}\U{947}\U{902} \U{909}\U{928}\U{94D}\U{928}\U{924} \U{92A}\U{94D}\U{930}\U{94C}\U{926}\U{94D}\U{92F}\U{94B}\U{917}\U{93F}\U{915}\U{940} \U{914}\U{930} \U{905}\U{902}\U{924}\U{930}\U{93F}\U{915}\U{94D}\U{937} \U{905}\U{928}\U{94D}\U{935}\U{947}\U{937}\U{923} \U{915}\U{947} \U{938}\U{93E}\U{925} \U{90F}\U{915} \U{930}\U{94B}\U{92E}\U{93E}\U{902}\U{91A}\U{915} \U{935}\U{93F}\U{91C}\U{94D}\U{91E}\U{93E}\U{928} \U{915}\U{925}\U{93E} \U{932}\U{918}\U{941} \U{915}\U{939}\U{93E}\U{928}\U{940} \U{939}\U{93F}\U{902}\U{926}\U{940} \U{92E}\U{947}\U{902} \U{932}\U{93F}\U{916}\U{947}\U{902}\U{964} \U{907}\U{938}\U{947} 500-600 \U{936}\U{92C}\U{94D}\U{926}\U{94B}\U{902} \U{915}\U{947} \U{906}\U{938}\U{92A}\U{93E}\U{938} \U{930}\U{916}\U{947}\U{902}\U{964}",
      "mystery" := "\U{938}\U{938}\U{94D}\U{92A}\U{947}\U{902}\U{938}, \U{938}\U{941}\U{930}\U{93E}\U{917} \U{914}\U{930} \U{90F}\U{915} \U{905}\U{92A}\U{94D}\U{930}\U{924}\U{94D}\U{92F}\U{93E}\U{936}\U{93F}\U{924} \U{92E}\U{94B}\U{921}\U{93C} \U{915}\U{947} \U{938}\U{93E}\U{925} \U{90F}\U{915} \U{926}\U{93F}\U{932}\U{91A}\U{938}\U{94D}\U{92A} \U{930}\U{939}\U{938}\U{94D}\U{92F} \U{932}\U{918}\U{941} \U{915}\U{939}\U{93E}\U{928}\U{940} \U{939}\U{93F}\U{902}\U{926}\U{940} \U{92E}\U{947}\U{902} \U{932}\U{93F}\U{916}\U{947}\U{902}\U{964} \U{907}\U{938}\U{947} 500-600 \U{936}\U{92C}\U{94D}\U{926}\U{94B}\U{902} \U{915}\U{947} \U{906}\U{938}\U{92A}\U{93E}\U{938} \U{930}\U{916}\U{947}\U{902}\U{964}",
      "romance" := "\U{92D}\U{93E}\U{935}\U{928}\U{93E}\U{924}\U{94D}\U{92E}\U{915} \U{917}\U{939}\U{930}\U{93E}\U{908} \U{915}\U{947} \U{938}\U{93E}\U{925} \U{92A}\U{94D}\U{92F}\U{93E}\U{930} \U{92E}\U{947}\U{902} \U{92A}\U{921}\U{93C}\U{928}\U{947} \U{935}\U{93E}\U{932}\U{947} \U{926}\U{94B} \U{932}\U{94B}\U{917}\U{94B}\U{902} \U{915}\U{947} \U{92C}\U{93E}\U{930}\U{947} \U{92E}\U{947}\U{902} \U{90F}\U{915} \U{926}\U{93F}\U{932} \U{915}\U{94B} \U{91B}\U{942} \U{932}\U{947}\U{928}\U{947} \U{935}\U{93E}\U{932}\U{940} \U{930}\U{94B}\U{92E}\U{93E}\U{902}\U{91F}\U{93F}\U{915} \U{932}\U{918}\U{941} \U{915}\U{939}\U{93E}\U{928}\U{940} \U{939}\U{93F}\U{902}\U{926}\U{940} \U{92E}\U{947}\U{902} \U{932}\U{93F}\U{916}\U{947}\U{902}\U{964} \U{907}\U{938}\U{947} 500-600 \U{936}\U{92C}\U{94D}\U{926}\U{94B}\U{902} \U{915}\U{947} \U{906}\U{938}\U{92A}\U{93E}\U{938} \U{930}\U{916}\U{947}\U{902}\U{964}",
      "horror" := "\U{921}\U{930}\U{93E}\U{935}\U{928}\U{947} \U{92E}\U{93E}\U{939}\U{94C}\U{932} \U{915}\U{947} \U{938}\U{93E}\U{925} \U{938}\U{938}\U{94D}\U{92A}\U{947}\U{902}\U{938} \U{914}\U{930} \U{921}\U{930} \U{92A}\U{948}\U{926}\U{93E} \U{915}\U{930}\U{928}\U{947} \U{935}\U{93E}\U{932}\U{940} \U{90F}\U{915} \U{930}\U{94B}\U{902}\U{917}\U{91F}\U{947} \U{916}\U{921}\U{93C}\U{947} \U{915}\U{930} \U{926}\U{947}\U{928}\U{947} \U{935}\U{93E}\U{932}\U{940} \U{939}\U{949}\U{930}\U{930} \U{932}\U{918}\U{941} \U{915}\U{939}\U{93E}\U{928}\U{940} \U{939}\U{93F}\U{902}\U{926}\U{940} \U{92E}\U{947}\U{902} \U{932}\U{93F}\U{916}\U{947}\U{902}\U{964} \U{907}\U{938}\U{947} 500-600 \U{936}\U{92C}\U{94D}\U{926}\U{94B}\U{902} \U{915}\U{947} \U{906}\U{938}\U{92A}\U{93E}\U{938} \U{930}\U{916}\U{947}\U{902}\U{964}",
      "adventure" := "\U{905}\U{928}\U{94D}\U{935}\U{947}\U{937}\U{923}, \U{91A}\U{941}\U{928}\U{94C}\U{924}\U{93F}\U{92F}\U{94B}\U{902} \U{914}\U{930} \U{930}\U{94B}\U{92E}\U{93E}\U{902}\U{91A}\U{915} \U{916}\U{94B}\U{91C}\U{94B}\U{902} \U{915}\U{947} \U{938}\U{93E}\U{925} \U{90F}\U{915} \U{930}\U{94B}\U{92E}\U{93E}\U{902}\U{91A}\U{915} \U{938}\U{93E}\U{939}\U{938}\U{93F}\U{915} \U{932}\U{918}\U{941} \U{915}\U{939}\U{93E}\U{928}\U{940} \U{939}\U{93F}\U{902}\U{926}\U{940} \U{92E}\U{947}\U{902} \U{932}\U{93F}\U{916}\U{947}\U{902}\U{964} \U{907}\U{938}\U{947} 500-600 \U{936}\U{92C}\U{94D}\U{926}\U{94B}\U{902} \U{915}\U{947} \U{906}\U{938}\U{92A}\U{93E}\U{938} \U{930}\U{916}\U{947}\U{902}\U{964}",
      "comedy" := "\U{92E}\U{91C}\U{947}\U{926}\U{93E}\U{930} \U{938}\U{94D}\U{925}\U{93F}\U{924}\U{93F}\U{92F}\U{94B}\U{902} \U{914}\U{930} \U{92E}\U{91C}\U{93E}\U{915}\U{93F}\U{92F}\U{93E} \U{938}\U{902}\U{935}\U{93E}\U{926} \U{915}\U{947} \U{938}\U{93E}\U{925} \U{90F}\U{915} \U{939}\U{93E}\U{938}\U{94D}\U{92F}\U{92A}\U{94D}\U{930}\U{926} \U{915}\U{949}\U{92E}\U{947}\U{921}\U{940} \U{932}\U{918}\U{941} \U{915}\U{939}\U{93E}\U{928}\U{940} \U{939}\U{93F}\U{902}\U{926}\U{940} \U{92E}\U{947}\U{902} \U{932}\U{93F}\U{916}\U{947}\U{902}\U{964} \U{907}\U{938}\U{947} 500-600 \U{936}\U{92C}\U{94D}\U{926}\U{94B}\U{902} \U{915}\U{947} \U{906}\U{938}\U{92A}\U{93E}\U{938} \U{930}\U{916}\U{947}\U{902}\U{964}",
      "thriller" := "\U{909}\U{91A}\U{94D}\U{91A} \U{926}\U{93E}\U{902}\U{935}, \U{924}\U{928}\U{93E}\U{935} \U{914}\U{930} \U{90F}\U{921}\U{94D}\U{930}\U{947}\U{928}\U{93E}\U{932}\U{93E}\U{908}\U{928} \U{915}\U{94B} \U{92C}\U{922}\U{93C}\U{93E}\U{928}\U{947} \U{935}\U{93E}\U{932}\U{940} \U{915}\U{93E}\U{930}\U{94D}\U{930}\U{935}\U{93E}\U{908} \U{915}\U{947} \U{938}\U{93E}\U{925} \U{90F}\U{915} \U{924}\U{940}\U{935}\U{94D}\U{930} \U{925}\U{94D}\U{930}\U{93F}\U{932}\U{930} \U{932}\U{918}\U{941} \U{915}\U{939}\U{93E}\U{928}\U{940} \U{939}\U{93F}\U{902}\U{926}\U{940} \U{92E}\U{947}\U{902} \U{932}\U{93F}\U{916}\U{947}\U{902}\U{964} \U{907}\U{938}\U{947} 500-600 \U{936}\U{92C}\U{94D}\U{926}\U{94B}\U{902} \U{915}\U{947} \U{906}\U{938}\U{92A}\U{93E}\U{938} \U{930}\U{916}\U{947}\U{902}\U{964}"
    ]
  ]

  /** The fallback prompt, `genrePrompts.english.fantasy`. */
  const FallbackPrompt: string := GenrePrompts["english"]["fantasy"]

  /** `genrePrompts[language]?.[genre] || genrePrompts.english.fantasy` (line 44). */
  function PromptFor(genre: string, language: string): (p: string)
    ensures (language in GenrePrompts && genre in GenrePrompts[language]
             && GenrePrompts[language][genre] != "") ==> p == GenrePrompts[language][genre]
    ensures !(language in GenrePrompts && genre in GenrePrompts[language]) ==> p == FallbackPrompt
  {
    if language in GenrePrompts && genre in GenrePrompts[language]
       && GenrePrompts[language][genre] != ""
    then GenrePrompts[language][genre]
    else FallbackPrompt
  }

  /** What the model call yields: a reply text, or an error with an optional `message`. */
  datatype ModelReply = Produced(text: string) | Rejected(message: Option<string>)

  /** How `generateStory` settles: it returns a story or throws an `Error`. */
  datatype Outcome = Returned(story: string) | Thrown(message: string)

  /** The prompt sent to the model, if any, and the outcome. */
  datatype Generation = Generation(request: Option<string>, outcome: Outcome)

  /** The `catch` block (lines 58-64): inspect the caught error's `message`. */
  function Classify(message: Option<string>): (m: string)
    ensures m in {InvalidKeyMessage, QuotaMessage, GenericFailureMessage}
    ensures message.Some? && Contains(message.value, "API key") ==> m == InvalidKeyMessage
    ensures message.Some? && !Contains(message.value, "API key") && Contains(message.value, "quota")
            ==> m == QuotaMessage
    ensures message.None? ==> m == GenericFailureMessage
    ensures message.Some? && !Contains(message.value, "API key") && !Contains(message.value, "quota")
            ==> m == GenericFailureMessage
  {
    if message.Some? && Contains(message.value, "API key") then InvalidKeyMessage
    else if message.Some? && Contains(message.value, "quota") then QuotaMessage
    else GenericFailureMessage
  }

  /**
   * How the `try` block settles once the prompt is sent (lines 46-64): a
   * non-blank reply text is returned; a blank one is thrown as "Generated
   * story is empty"; either error then passes through the `catch`.
   */
  function Settle(reply: ModelReply): (o: Outcome)
    ensures o.Returned? <==> reply.Produced? && !IsBlank(reply.text)
    ensures o.Returned? ==> o.story == reply.text
    ensures reply.Rejected? ==> o == Thrown(Classify(reply.message))
    ensures o.Thrown? ==> o.message in {InvalidKeyMessage, QuotaMessage, GenericFailureMessage}
  {
    match reply
    case Produced(text) =>
      if Trim(text) == [] then Thrown(Classify(Some(EmptyStoryMessage))) else Returned(text)
    case Rejected(message) => Thrown(Classify(message))
  }

  /** `generateStory(genre, language)` (lines 34-66), with the key and the reply as parameters. */
  function GenerateStory(apiKey: Option<string>, genre: string, language: string,
                         reply: ModelReply): (g: Generation)
    ensures g.request.None? <==> !Truthy(apiKey)
    ensures g.request.Some? ==> g.request.value == PromptFor(genre, language)
    ensures !Truthy(apiKey) ==> g.outcome == Thrown(MissingKeyMessage)
    ensures Truthy(apiKey) ==> g.outcome == Settle(reply)
    ensures g.outcome.Returned? <==> Truthy(apiKey) && reply.Produced? && !IsBlank(reply.text)
    ensures g.outcome.Returned? ==> g.outcome.story == reply.text
    ensures Truthy(apiKey) && g.outcome.Thrown? ==>
              g.outcome.message in {InvalidKeyMessage, QuotaMessage, GenericFailureMessage}
  {
    if !Truthy(apiKey) then Generation(None, Thrown(MissingKeyMessage))
    else Generation(Some(PromptFor(genre, language)), Settle(reply))
  }

  /** A string without one of the characters of `sub` does not contain `sub`. */
  lemma LacksChar(s: string, sub: string, j: nat)
    requires j < |sub| && sub[j] !in s
    ensures !Contains(s, sub)
  {
    if Contains(s, sub) {
      ContainsEachChar(s, sub, j);
    }
  }

  /** `sub` occurs in `pre + sub + post`. */
  lemma AppearsInMiddle(pre: string, sub: string, post: string)
    ensures Contains(pre + sub + post, sub)
  {
    var s := pre + sub + post;
    assert s[|pre|..][..|sub|] == sub;
    assert OccursAt(s, sub, |pre|);
  }

  /**
   * A blank reply reaches the user as the generic failure: the message
   * thrown for it mentions neither "API key" nor "quota".
   */
  lemma BlankReplyIsGenericFailure(text: string)
    requires IsBlank(text)
    ensures Settle(Produced(text)) == Thrown(GenericFailureMessage)
  {
    assert "API key"[0] == 'A';
    LacksChar(EmptyStoryMessage, "API key", 0);
    assert "quota"[0] == 'q';
    LacksChar(EmptyStoryMessage, "quota", 0);
  }

  /**
   * The missing-key check sits outside the `try`: had its error passed
   * through the `catch`, it would have become the invalid-key message,
   * because it mentions "API key".
   */
  lemma MissingKeyWouldReadAsInvalid()
    ensures Classify(Some(MissingKeyMessage)) == InvalidKeyMessage
  {
    AppearsInMiddle("Gemini ", "API key",
      " is not configured. " + "Please set VITE_GEMINI_API_KEY in your environment variables.");
  }

  /** Both languages offer the same eight genres, and every prompt is non-empty. */
  lemma PromptTableKeys()
    ensures GenrePrompts.Keys == {"english", "hindi"}
  {
  }

  lemma PromptTableGenres()
    ensures GenrePrompts["english"].Keys
            == {"fantasy", "scifi", "mystery", "romance", "horror", "adventure", "comedy", "thriller"}
    ensures GenrePrompts["english"].Keys == GenrePrompts["hindi"].Keys
  {
  }

  lemma PromptTableNonEmpty()
    ensures forall l, g :: l in GenrePrompts && g in GenrePrompts[l] ==> GenrePrompts[l][g] != ""
  {
  }

  /** Every request sends a non-empty prompt of the table, whatever the genre and language. */
  lemma PromptIsTableEntry(genre: string, language: string)
    ensures PromptFor(genre, language) != ""
    ensures exists l, g :: l in GenrePrompts && g in GenrePrompts[l]
                           && PromptFor(genre, language) == GenrePrompts[l][g]
  {
    PromptTableNonEmpty();
    if language in GenrePrompts && genre in GenrePrompts[language] {
      assert PromptFor(genre, language) == GenrePrompts[language][genre];
    } else {
      assert PromptFor(genre, language) == GenrePrompts["english"]["fantasy"];
    }
  }
}
