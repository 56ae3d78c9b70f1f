/**
 * PinSetupScreen: a new PIN is typed twice on the number pad. Step 1 fills
 * `pin`, step 2 fills `confirmPin`; a match hands the PIN to the caller,
 * a mismatch starts over with an error.
 */
module PinSetup {
  import opened Wrappers
  import opened Text

  const PinLength := 4
  const MismatchMessage := "PINs do not match. Try again."

  class PinSetupScreen {
    var pin: string
    var confirmPin: string
    /** 1: enter, 2: confirm. */
    var step: int
    var error: Option<string>

    /**
     * Step 1 holds a partial PIN and an empty confirmation; step 2 holds a
     * complete PIN and a partial confirmation, or a complete one equal to it.
     */
    predicate Valid()
      reads this
    {
      AllDigits(pin) && AllDigits(confirmPin) &&
      (step == 1 || step == 2) &&
      (step == 1 ==> |pin| < PinLength && confirmPin == "") &&
      (step == 2 ==> |pin| == PinLength && |confirmPin| <= PinLength &&
                     (|confirmPin| == PinLength ==> confirmPin == pin))
    }

    constructor ()
      ensures Valid()
      ensures pin == "" && confirmPin == "" && step == 1 && error == None
    {
      pin := "";
      confirmPin := "";
      step := 1;
      error := None;
    }

    /**
     * A digit from the pad. `pinSet` is the PIN passed to `onPinSet`, when
     * the confirmation completes and matches.
     */
    method OnNumberClick(num: char) returns (pinSet: Option<string>)
      requires Valid() && IsDigit(num)
      modifies this
      ensures Valid()
      ensures pinSet.Some? ==> |pinSet.value| == PinLength && AllDigits(pinSet.value)
      ensures old(step) == 1 ==>
                pinSet == None && error == None && pin == old(pin) + [num] &&
                step == (if |pin| == PinLength then 2 else 1)
      ensures old(step) == 2 && |old(confirmPin)| == PinLength ==>
                pinSet == Some(old(pin)) && pin == old(pin) && confirmPin == old(confirmPin) &&
                step == 2 && error == None
      ensures old(step) == 2 && |old(confirmPin)| < PinLength && old(confirmPin) + [num] == old(pin) ==>
                pinSet == Some(old(pin)) && pin == old(pin) && confirmPin == old(pin) && step == 2 && error == None
      ensures old(step) == 2 && |old(confirmPin)| < PinLength && old(confirmPin) + [num] != old(pin) ==>
                pinSet == None &&
                if |old(confirmPin)| + 1 == PinLength
                then pin == "" && confirmPin == "" && step == 1 && error == Some(MismatchMessage)
                else pin == old(pin) && confirmPin == old(confirmPin) + [num] && step == 2 && error == None
    {
      pinSet := None;
      error := None;
      if step == 1 {
        if |pin| < PinLength {
          pin := pin + [num];
        }
        if |pin| == PinLength {
          step := 2;
        }
      } else {
        if |confirmPin| < PinLength {
          confirmPin := confirmPin + [num];
        }
        if |confirmPin| == PinLength {
          if confirmPin == pin {
            pinSet := Some(pin);
          } else {
            error := Some(MismatchMessage);
            confirmPin := "";
            pin := "";
            step := 1;
          }
        }
      }
    }

    /** The delete key: drops the last digit of the current step's buffer; the step never changes. */
    method OnDeleteClick()
      requires Valid()
      modifies this
      ensures Valid()
      ensures error == None && step == old(step)
      ensures step == 1 ==> pin == DropLast(old(pin)) && confirmPin == old(confirmPin)
      ensures step == 2 ==> confirmPin == DropLast(old(confirmPin)) && pin == old(pin)
    {
      error := None;
      if step == 1 {
        if |pin| > 0 {
          pin := pin[..|pin| - 1];
        }
      } else {
        if |confirmPin| > 0 {
          confirmPin := confirmPin[..|confirmPin| - 1];
        }
      }
    }
  }

  /** Kotlin's `dropLast(1)`: the string without its last character, or itself when empty. */
  function DropLast(s: string): (r: string)
    ensures |r| == if s == [] then 0 else |s| - 1
    ensures r == s[..|r|]
  {
    if s == [] then s else s[..|s| - 1]
  }
}
