/**
 * The unlock screen of AuthScreen.jsx: the entered secret, the error
 * line, and the submit handler that compares the entry with the key
 * configured at build time (a parameter here).
 */
module Auth {
  import opened Wrappers
  import opened Text

  /** The literal set when no key is configured (line 13). */
  const NotConfiguredMessage: string := "Secret key not configured. Please set VITE_SECRET_KEY in environment variables."
  /** The literal set when the entry does not match (line 21). */
  const InvalidSecretMessage: string := "Invalid secret key. Please try again."

  /** The three ways a submit can end. */
  datatype Decision = NotConfigured | Unlocked | Rejected

  /** Which branch of `handleSubmit` (lines 12-23) runs for an entry and a configured key. */
  function Decide(entered: string, correctKey: Option<string>): (d: Decision)
    ensures d == NotConfigured <==> !Truthy(correctKey)
    ensures d == Unlocked <==> correctKey.Some? && correctKey.value != "" && entered == correctKey.value
    ensures d == Rejected <==> Truthy(correctKey) && entered != correctKey.value
  {
    if !Truthy(correctKey) then NotConfigured
    else if entered == correctKey.value then Unlocked
    else Rejected
  }

  /** An empty entry never unlocks, whatever is configured. */
  lemma EmptyEntryNeverUnlocks(correctKey: Option<string>)
    ensures Decide("", correctKey) != Unlocked
  {
  }

  /** At most one entry unlocks for a given configuration. */
  lemma UnlockingEntryIsUnique(a: string, b: string, correctKey: Option<string>)
    requires Decide(a, correctKey) == Unlocked && Decide(b, correctKey) == Unlocked
    ensures a == b
  {
  }

  class AuthScreen {
    /** The entered secret, bound to the password field (lines 5 and 37). */
    var secretKey: string
    var error: string
    /** The arguments of each `onAuthenticate` call, in order. */
    ghost var authentications: seq<bool>

    constructor ()
      ensures secretKey == "" && error == "" && authentications == []
    {
      secretKey, error := "", "";
      authentications := [];
    }

    /** The password field's `onChange` (line 37). */
    method EnterKey(value: string)
      modifies this
      ensures secretKey == value && error == old(error) && authentications == old(authentications)
    {
      secretKey := value;
    }

    /**
     * `handleSubmit` (lines 8-24); `correctKey` is `VITE_SECRET_KEY`, and
     * `unlocked` says whether `onAuthenticate(true)` was called.
     */
    method HandleSubmit(correctKey: Option<string>) returns (unlocked: bool)
      modifies this
      ensures unlocked <==> Decide(old(secretKey), correctKey) == Unlocked
      ensures authentications == old(authentications) + (if unlocked then [true] else [])
      ensures Decide(old(secretKey), correctKey) == NotConfigured ==>
                error == NotConfiguredMessage && secretKey == old(secretKey)
      ensures Decide(old(secretKey), correctKey) == Unlocked ==>
                error == "" && secretKey == old(secretKey)
      ensures Decide(old(secretKey), correctKey) == Rejected ==>
                error == InvalidSecretMessage && secretKey == ""
    {
      if !Truthy(correctKey) {
        error := NotConfiguredMessage;
        return false;
      }
      if secretKey == correctKey.value {
        error := "";
        authentications := authentications + [true];
        unlocked := true;
      } else {
        error := InvalidSecretMessage;
        secretKey := "";
        unlocked := false;
      }
    }
  }

  /**
   * A wrong entry clears the field, so pressing Unlock again at once is
   * refused again (for a non-empty key) without unlocking.
   */
  method WrongThenRetry(wrong: string, key: string)
    returns (first: bool, second: bool, error: string)
    requires key != "" && wrong != key
    ensures !first && !second && error == InvalidSecretMessage
  {
    var screen := new AuthScreen();
    screen.EnterKey(wrong);
    first := screen.HandleSubmit(Some(key));
    second := screen.HandleSubmit(Some(key));
    error := screen.error;
  }
}
