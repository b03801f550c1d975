/**
 * The browser speech engine (`window.speechSynthesis`) as the player sees
 * it: an object that receives commands. Only the commands are recorded;
 * what the engine does with them, and when it fires events, is not modelled.
 */
module Speech {
  import opened Wrappers
  import opened Voices

  /** A `SpeechSynthesisUtterance` as configured by `speakStory` (lines 27-117). */
  datatype Utterance = Utterance(
    text: string,
    lang: string,
    voice: Option<Voice>,
    rate: real,
    pitch: real,
    volume: real)

  /** A command sent to the engine. */
  datatype Command = Cancel | Speak(utterance: Utterance) | Pause | Resume

  class SpeechEngine {
    /** Every command received so far, oldest first. */
    ghost var log: seq<Command>

    constructor ()
      ensures log == []
    {
      log := [];
    }

    /** `speechSynthesis.cancel()`. */
    method Cancel()
      modifies this
      ensures log == old(log) + [Command.Cancel]
    {
      log := log + [Command.Cancel];
    }

    /** `speechSynthesis.speak(utterance)`. */
    method Speak(u: Utterance)
      modifies this
      ensures log == old(log) + [Command.Speak(u)]
    {
      log := log + [Command.Speak(u)];
    }

    /** `speechSynthesis.pause()`. */
    method Pause()
      modifies this
      ensures log == old(log) + [Command.Pause]
    {
      log := log + [Command.Pause];
    }

    /** `speechSynthesis.resume()`. */
    method Resume()
      modifies this
      ensures log == old(log) + [Command.Resume]
    {
      log := log + [Command.Resume];
    }
  }

}
