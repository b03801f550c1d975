/**
 * The generator screen of StoryGenerator.jsx: the genre and language
 * choice, the generate, reset and language-change handlers, and the genre
 * name shown on each button.
 */
module Generator {
  import opened Wrappers
  import opened Text
  import opened GeminiService

  /** One entry of the `genres` list (lines 6-15). */
  datatype Genre = Genre(id: string, name: string, emoji: string)

  /** The genre buttons, in display order (lines 6-15). */
  const Genres: seq<Genre> := [
    Genre("fantasy", "\U{2728} Fantasy", "\U{2728}"),
    Genre("scifi", "\U{1F680} Sci-Fi", "\U{1F680}"),
    Genre("mystery", "\U{1F50D} Mystery", "\U{1F50D}"),
    Genre("romance", "\U{1F496} Romance", "\U{1F496}"),
    Genre("horror", "\U{1F47B} Horror", "\U{1F47B}"),
    Genre("adventure", "\U{1F5FA}\U{FE0F} Adventure", "\U{1F5FA}\U{FE0F}"),
    Genre("comedy", "\U{1F602} Comedy", "\U{1F602}"),
    Genre("thriller", "\U{26A1} Thriller", "\U{26A1}")
  ]

  /**
   * The eight genres in display order, each button label starting with the
   * genre's emoji and a space.
   */
  lemma GenreOrder()
    ensures |Genres| == 8
    ensures [Genres[0].id, Genres[1].id, Genres[2].id, Genres[3].id,
             Genres[4].id, Genres[5].id, Genres[6].id, Genres[7].id]
         == ["fantasy", "scifi", "mystery", "romance", "horror", "adventure", "comedy", "thriller"]
    ensures forall i :: 0 <= i < |Genres| ==> StartsWith(Genres[i].name, Genres[i].emoji + " ")
  {
  }

  /** The two language buttons (lines 71 and 78). */
  const UiLanguages: seq<string> := ["english", "hindi"]

  /** Set when Generate is pressed with no genre (line 26). */
  const NoGenreMessage: string := "Please select a genre first!"
  /** Shown when the caught error has an empty `message` (line 38). */
  const DefaultFailureMessage: string := "Failed to generate story. Please try again."

  /** A character `/[^a-zA-Z\s]/g` does not remove: an ASCII letter or whitespace. */
  predicate KeptInName(c: char) {
    ('a' <= c <= 'z') || ('A' <= c <= 'Z') || IsSpace(c)
  }

  /** `genre.name.replace(/[^a-zA-Z\s]/g, '')` (line 97). */
  function CleanName(name: string): (r: string)
    ensures |r| <= |name|
    ensures forall i :: 0 <= i < |r| ==> KeptInName(r[i])
    ensures forall i :: 0 <= i < |r| ==> r[i] in name
  {
    Filter(name, KeptInName)
  }

  /** The cleaner works character by character: it commutes with concatenation. */
  lemma CleanNameAppend(a: string, b: string)
    ensures CleanName(a + b) == CleanName(a) + CleanName(b)
  {
    FilterAppend(a, b, KeptInName);
  }

  /** Kept characters survive unchanged and in order. */
  lemma CleanNameKeepsKept(s: string)
    requires forall i :: 0 <= i < |s| ==> KeptInName(s[i])
    ensures CleanName(s) == s
  {
    FilterAllKept(s, KeptInName);
  }

  /** Removed characters vanish. */
  lemma CleanNameDropsOthers(s: string)
    requires forall i :: 0 <= i < |s| ==> !KeptInName(s[i])
    ensures CleanName(s) == []
  {
    FilterNoneKept(s, KeptInName);
  }

  /** Cleaning twice is cleaning once. */
  lemma CleanNameIdempotent(name: string)
    ensures CleanName(CleanName(name)) == CleanName(name)
  {
    CleanNameKeepsKept(CleanName(name));
  }

  /** A label made of removed and kept pieces cleans to its kept pieces. */
  lemma CleanPieces(name: string, emoji: string, first: string, cut: string, second: string)
    requires name == (emoji + first) + (cut + second)
    requires forall i :: 0 <= i < |emoji| ==> !KeptInName(emoji[i])
    requires forall i :: 0 <= i < |cut| ==> !KeptInName(cut[i])
    requires forall i :: 0 <= i < |first| ==> KeptInName(first[i])
    requires forall i :: 0 <= i < |second| ==> KeptInName(second[i])
    ensures CleanName(name) == first + second
  {
    CleanNameAppend(emoji + first, cut + second);
    DroppedThenKept(emoji, first);
    DroppedThenKept(cut, second);
  }

  /** Removed characters followed by kept ones clean to the kept ones. */
  lemma DroppedThenKept(dropped: string, kept: string)
    requires forall i :: 0 <= i < |dropped| ==> !KeptInName(dropped[i])
    requires forall i :: 0 <= i < |kept| ==> KeptInName(kept[i])
    ensures CleanName(dropped + kept) == kept
  {
    CleanNameAppend(dropped, kept);
    CleanNameDropsOthers(dropped);
    CleanNameKeepsKept(kept);
    assert [] + kept == kept;
  }

  /** The Sci-Fi button reads " SciFi": the rocket and the hyphen are removed. */
  lemma SciFiLabel(name: string)
    requires name == Genres[1].name
    ensures CleanName(name) == " SciFi"
  {
    CleanPieces(name, "\U{1F680}", " Sci", "-", "Fi");
  }

  /** Every genre id has a prompt in both languages, so the fallback is never used from the screen. */
  lemma GenresHavePrompts()
    ensures forall i, l :: 0 <= i < |Genres| && l in UiLanguages ==>
              l in GenrePrompts && Genres[i].id in GenrePrompts[l]
    ensures forall i, l :: 0 <= i < |Genres| && l in UiLanguages ==>
              PromptFor(Genres[i].id, l) == GenrePrompts[l][Genres[i].id]
  {
    PromptTableKeys();
    PromptTableGenres();
    PromptTableNonEmpty();
  }

  /** The state of the generator screen (lines 18-22) and a ghost log of service calls. */
  class StoryGenerator {
    var selectedGenre: string
    var selectedLanguage: string
    var story: string
    var loading: bool
    var error: string
    /** `(genre, language)` of each `generateStory` call, in order. */
    ghost var calls: seq<(string, string)>

    constructor ()
      ensures selectedGenre == "" && selectedLanguage == "english"
      ensures story == "" && !loading && error == "" && calls == []
    {
      selectedGenre, selectedLanguage := "", "english";
      story, loading, error := "", false, "";
      calls := [];
    }

    /** The player replaces the generator when a story is set (lines 64 and 121). */
    function PlayerShown(): bool
      reads this
    {
      story != ""
    }

    /** The Generate button is disabled (line 108). */
    function GenerateDisabled(): bool
      reads this
    {
      loading || selectedGenre == ""
    }

    /** A genre button's `onClick` (line 93). */
    method SelectGenre(id: string)
      modifies this
      ensures selectedGenre == id
      ensures selectedLanguage == old(selectedLanguage) && story == old(story)
      ensures loading == old(loading) && error == old(error) && calls == old(calls)
    {
      selectedGenre := id;
    }

    /**
     * `handleGenerateStory` up to the `await` (lines 24-35): refuse without a
     * genre; otherwise clear the story and the error, show the spinner, and
     * call the service.
     */
    method BeginGeneration() returns (started: bool)
      modifies this
      ensures started <==> old(selectedGenre) != ""
      ensures !started ==> error == NoGenreMessage && story == old(story)
                           && loading == old(loading) && calls == old(calls)
      ensures started ==> loading && error == "" && story == ""
                          && calls == old(calls) + [(selectedGenre, selectedLanguage)]
      ensures selectedGenre == old(selectedGenre) && selectedLanguage == old(selectedLanguage)
    {
      if selectedGenre == "" {
        error := NoGenreMessage;
        return false;
      }
      loading := true;
      error := "";
      story := "";
      calls := calls + [(selectedGenre, selectedLanguage)];
      return true;
    }

    /** `handleGenerateStory` after the `await` (lines 36-41). */
    method FinishGeneration(outcome: Outcome)
      modifies this
      ensures outcome.Returned? ==> story == outcome.story && error == old(error)
      ensures outcome.Thrown? ==> story == old(story)
                                  && error == if outcome.message != "" then outcome.message
                                              else DefaultFailureMessage
      ensures !loading
      ensures selectedGenre == old(selectedGenre) && selectedLanguage == old(selectedLanguage)
      ensures calls == old(calls)
    {
      match outcome {
        case Returned(text) =>
          story := text;
        case Thrown(message) =>
          error := if message != "" then message else DefaultFailureMessage;
      }
      loading := false;
    }

    /**
     * The whole of `handleGenerateStory` with the service of
     * geminiService.js; `apiKey` is the configured key and `reply` what the
     * model answers.
     */
    method HandleGenerateStory(apiKey: Option<string>, reply: ModelReply)
      modifies this
      ensures old(selectedGenre) == "" ==>
                && error == NoGenreMessage && story == old(story)
                && loading == old(loading) && calls == old(calls)
      ensures old(selectedGenre) != "" ==>
                && !loading
                && calls == old(calls) + [(old(selectedGenre), old(selectedLanguage))]
                && (story != "" <==> error == "")
                && (story != "" ==> GenerateStory(apiKey, old(selectedGenre), old(selectedLanguage), reply)
                                       .outcome == Returned(story)
                                     && !IsBlank(story) && PlayerShown())
                && (error != "" ==> GenerateStory(apiKey, old(selectedGenre), old(selectedLanguage), reply)
                                      .outcome == Thrown(error))
      ensures selectedGenre == old(selectedGenre) && selectedLanguage == old(selectedLanguage)
    {
      var started := BeginGeneration();
      if started {
        var g := GenerateStory(apiKey, selectedGenre, selectedLanguage, reply);
        ThrownMessageIsNonEmpty(apiKey, selectedGenre, selectedLanguage, reply);
        FinishGeneration(g.outcome);
      }
    }

    /** `handleReset` (lines 44-48). */
    method HandleReset()
      modifies this
      ensures story == "" && selectedGenre == "" && error == ""
      ensures selectedLanguage == old(selectedLanguage) && loading == old(loading) && calls == old(calls)
      ensures !PlayerShown() && GenerateDisabled()
    {
      story := "";
      selectedGenre := "";
      error := "";
    }

    /** `handleLanguageChange` (lines 50-53). */
    method HandleLanguageChange(language: string)
      modifies this
      ensures selectedLanguage == language && selectedGenre == ""
      ensures story == old(story) && loading == old(loading) && error == old(error) && calls == old(calls)
      ensures GenerateDisabled()
    {
      selectedLanguage := language;
      selectedGenre := "";
    }
  }

  /** Every error the service throws has a non-empty message, so the default text is never needed. */
  lemma ThrownMessageIsNonEmpty(apiKey: Option<string>, genre: string, language: string, reply: ModelReply)
    ensures GenerateStory(apiKey, genre, language, reply).outcome.Thrown? ==>
              GenerateStory(apiKey, genre, language, reply).outcome.message != ""
  {
    var g := GenerateStory(apiKey, genre, language, reply);
    if g.outcome.Thrown? {
      if !Truthy(apiKey) {
        assert MissingKeyMessage[0] == 'G';
      } else {
        assert |InvalidKeyMessage| > 0;
        assert |QuotaMessage| > 0;
        assert |GenericFailureMessage| > 0;
      }
    }
  }
}
