/**
 * LockScreen: PIN entry against the stored PIN, the biometric shortcut,
 * and the security-question recovery dialog. Callbacks (`onUnlock`,
 * `onRequestPinReset`) are returned as results.
 */
module LockScreen {
  import opened Wrappers
  import opened Text
  import opened Preferences
  import PinSetup

  const IncorrectPinMessage := "Incorrect PIN"
  const IncorrectAnswerMessage := "Incorrect answers. Please try again."

  class LockScreenState {
    const correctPin: string
    const isBiometricEnabled: bool
    const enableBiometric: bool
    var pin: string
    var error: Option<string>

    /** A full entry is checked at once, so between key presses a full entry is the correct one. */
    predicate Valid()
      reads this
    {
      |pin| <= PinSetup.PinLength && (|pin| == PinSetup.PinLength ==> pin == correctPin)
    }

    constructor (correctPin: string, isBiometricEnabled: bool, enableBiometric: bool)
      ensures Valid()
      ensures this.correctPin == correctPin && this.isBiometricEnabled == isBiometricEnabled
      ensures this.enableBiometric == enableBiometric
      ensures pin == "" && error == None
    {
      this.correctPin := correctPin;
      this.isBiometricEnabled := isBiometricEnabled;
      this.enableBiometric := enableBiometric;
      pin := "";
      error := None;
    }

    /**
     * A digit from the pad, followed by the check the screen runs when the
     * entry changes: four digits equal to the stored PIN unlock, four other
     * digits show the error and clear the entry. A full entry takes no digit
     * and so triggers no check.
     */
    method OnNumberClick(num: char) returns (unlocked: bool)
      requires Valid()
      modifies this
      ensures Valid()
      ensures |old(pin)| == PinSetup.PinLength ==> !unlocked && pin == old(pin) && error == old(error)
      ensures |old(pin)| < PinSetup.PinLength ==>
                (unlocked <==> old(pin) + [num] == correctPin && |correctPin| == PinSetup.PinLength)
      ensures |old(pin)| + 1 < PinSetup.PinLength ==> pin == old(pin) + [num] && error == None
      ensures |old(pin)| + 1 == PinSetup.PinLength ==>
                if unlocked then pin == correctPin && error == None
                else pin == "" && error == Some(IncorrectPinMessage)
    {
      unlocked := false;
      if |pin| < PinSetup.PinLength {
        error := None;
        pin := pin + [num];
        // the entry changed, so the check runs again
        unlocked := VerifyPin();
      }
    }

    /** The check on a changed entry (`LaunchedEffect(pin)`): `unlocked` is the call of `onUnlock`. */
    method VerifyPin() returns (unlocked: bool)
      requires |pin| <= PinSetup.PinLength
      modifies this
      ensures Valid()
      ensures unlocked <==> |old(pin)| == PinSetup.PinLength && old(pin) == correctPin
      ensures |old(pin)| < PinSetup.PinLength || unlocked ==> pin == old(pin) && error == old(error)
      ensures |old(pin)| == PinSetup.PinLength && !unlocked ==> pin == "" && error == Some(IncorrectPinMessage)
    {
      unlocked := false;
      if |pin| == PinSetup.PinLength {
        if pin == correctPin {
          unlocked := true;
        } else {
          error := Some(IncorrectPinMessage);
          pin := "";
        }
      }
    }

    method OnDeleteClick()
      requires Valid()
      modifies this
      ensures Valid()
      ensures error == None && pin == PinSetup.DropLast(old(pin))
    {
      error := None;
      if |pin| > 0 {
        pin := pin[..|pin| - 1];
      }
    }

    /** The biometric prompt starts on its own only when the setting and the caller both allow it and the device can authenticate. */
    function StartsBiometricPrompt(canAuthenticate: bool): (r: bool)
      ensures r ==> isBiometricEnabled && enableBiometric
      ensures r <==> isBiometricEnabled && enableBiometric && canAuthenticate
    {
      isBiometricEnabled && enableBiometric && canAuthenticate
    }

    /** The "USE BIOMETRIC" button is offered under the same two settings. */
    function ShowsBiometricButton(): (r: bool)
      ensures r <==> isBiometricEnabled && enableBiometric
    {
      isBiometricEnabled && enableBiometric
    }
  }

  /** What the forgot-PIN dialog shows. */
  datatype RecoveryDialog = RecoveryUnavailable | ResetPin(question: string)

  function RecoveryDialogFor(prefs: PreferenceManager): (d: RecoveryDialog)
    reads prefs
    ensures d == RecoveryUnavailable <==> prefs.SecurityQuestion1() == None
    ensures d.ResetPin? ==> Some(d.question) == prefs.SecurityQuestion1()
  {
    match prefs.SecurityQuestion1()
    case None => RecoveryUnavailable
    case Some(q) => ResetPin(q)
  }

  /** `answer.equals(stored, ignoreCase = true)`, which is false for a missing stored answer. */
  function AnswerMatches(answer: string, stored: Option<string>): (r: bool)
    ensures r <==> stored.Some? && Lower(answer) == Lower(stored.value)
  {
    EqualsIgnoreCaseIsLowerEquality(answer, if stored.Some? then stored.value else "");
    stored.Some? && EqualsIgnoreCase(answer, stored.value)
  }

  class ForgotPasswordDialog {
    const prefs: PreferenceManager
    var answer1: string
    var error: Option<string>

    constructor (prefs: PreferenceManager)
      ensures this.prefs == prefs && answer1 == "" && error == None
    {
      this.prefs := prefs;
      answer1 := "";
      error := None;
    }

    method OnAnswerChange(value: string)
      modifies this
      ensures answer1 == value && error == old(error)
    {
      answer1 := value;
    }

    /** "Verify": success requests the PIN reset; otherwise the error is shown and the dialog stays. */
    method OnVerify() returns (success: bool)
      modifies this
      ensures success <==> prefs.SecurityAnswer1().Some? && Lower(answer1) == Lower(prefs.SecurityAnswer1().value)
      ensures answer1 == old(answer1)
      ensures !success ==> error == Some(IncorrectAnswerMessage)
      ensures success ==> error == old(error)
    {
      success := AnswerMatches(answer1, prefs.SecurityAnswer1());
      if !success {
        error := Some(IncorrectAnswerMessage);
      }
    }
  }
}
