/**
 * SetupScreen: the three-step first-run wizard (currency, opening
 * balances, PIN and security question). Snackbar messages are recorded
 * in `messages`; `onComplete` is the result of `OnFinish`.
 */
module Setup {
  import opened Wrappers
  import opened Text
  import opened Preferences
  import PinSetup

  /**
   * The wizard's initial currency selection, as the source file spells it:
   * the three characters U+00E2 U+201A U+00B9 (the rupee sign's UTF-8
   * bytes read as Windows-1252), not the rupee sign itself.
   */
  const InitialSymbol: string := "â‚¹"

  const PinLengthMessage := "PIN must be 4 digits"
  const SecurityFieldsMessage := "Please fill all security fields"

  /** The initial selection is not the app's default currency symbol. */
  lemma InitialSymbolIsNotDefault()
    ensures InitialSymbol != DefaultCurrency
  {
    assert InitialSymbol[0] != DefaultCurrency[0];
  }

  /** `toDoubleOrNull() ?: 0.0` on a balance field. */
  function OpeningAmount(text: string): (r: real)
    ensures r >= 0.0
    ensures IsAmountText(text) && HasDigit(text) && DotCount(text) <= 1 ==> Some(r) == ParseDecimal(text)
    ensures ParseDecimal(text).None? ==> r == 0.0
  {
    ParseDecimal(text).GetOr(0.0)
  }

  class SetupWizard {
    const prefs: PreferenceManager
    /** 1: currency, 2: balances, 3: security. */
    var currentStep: int
    var selectedCurrencySymbol: string
    var cashBalance: string
    var bankBalance: string
    var pin: string
    var securityQuestion1: string
    var securityAnswer1: string
    var messages: seq<string>

    /** The input filters keep every field in its accepted form. */
    predicate Valid()
      reads this, prefs
    {
      1 <= currentStep <= 3 && prefs.Valid() &&
      IsAmountText(cashBalance) && IsAmountText(bankBalance) &&
      |pin| <= PinSetup.PinLength && AllDigits(pin)
    }

    constructor (prefs: PreferenceManager)
      requires prefs.Valid()
      ensures Valid() && this.prefs == prefs
      ensures currentStep == 1 && selectedCurrencySymbol == InitialSymbol
      ensures cashBalance == "" && bankBalance == "" && pin == ""
      ensures securityQuestion1 == "" && securityAnswer1 == "" && messages == []
    {
      this.prefs := prefs;
      currentStep := 1;
      selectedCurrencySymbol := InitialSymbol;
      cashBalance := "";
      bankBalance := "";
      pin := "";
      securityQuestion1 := "";
      securityAnswer1 := "";
      messages := [];
    }

    /** Step 1: the chosen currency is kept, saved to the settings, and the wizard moves on. */
    method OnCurrencySelected(symbol: string)
      requires Valid() && currentStep == 1
      modifies this, prefs
      ensures Valid()
      ensures selectedCurrencySymbol == symbol && prefs.SelectedCurrencySymbol() == symbol
      ensures prefs.strings == old(prefs.strings)[CurrencyKey := symbol] && prefs.bools == old(prefs.bools)
      ensures currentStep == 2
      ensures cashBalance == old(cashBalance) && bankBalance == old(bankBalance) && pin == old(pin)
      ensures messages == old(messages)
    {
      selectedCurrencySymbol := symbol;
      prefs.SetSelectedCurrencySymbol(symbol);
      currentStep := 2;
    }

    /** Step 2's cash field: an edit is taken only when it is made of digits and dots. */
    method OnCashChange(text: string)
      requires Valid()
      modifies this
      ensures Valid()
      ensures cashBalance == if IsAmountText(text) then text else old(cashBalance)
      ensures bankBalance == old(bankBalance) && pin == old(pin) && currentStep == old(currentStep)
    {
      if IsAmountText(text) {
        cashBalance := text;
      }
    }

    method OnBankChange(text: string)
      requires Valid()
      modifies this
      ensures Valid()
      ensures bankBalance == if IsAmountText(text) then text else old(bankBalance)
      ensures cashBalance == old(cashBalance) && pin == old(pin) && currentStep == old(currentStep)
    {
      if IsAmountText(text) {
        bankBalance := text;
      }
    }

    method OnNext()
      requires Valid() && currentStep == 2
      modifies this
      ensures Valid() && currentStep == 3
      ensures cashBalance == old(cashBalance) && bankBalance == old(bankBalance) && pin == old(pin)
    {
      currentStep := 3;
    }

    /** Step 3's PIN field: an edit is taken only when it is at most four digits. */
    method OnPinChange(text: string)
      requires Valid()
      modifies this
      ensures Valid()
      ensures pin == if |text| <= PinSetup.PinLength && AllDigits(text) then text else old(pin)
      ensures cashBalance == old(cashBalance) && bankBalance == old(bankBalance) && currentStep == old(currentStep)
    {
      if |text| <= PinSetup.PinLength && AllDigits(text) {
        pin := text;
      }
    }

    method OnQuestionChange(text: string)
      modifies this
      ensures securityQuestion1 == text && securityAnswer1 == old(securityAnswer1) && pin == old(pin)
      ensures cashBalance == old(cashBalance) && bankBalance == old(bankBalance) && currentStep == old(currentStep)
    {
      securityQuestion1 := text;
    }

    method OnAnswerChange(text: string)
      modifies this
      ensures securityAnswer1 == text && securityQuestion1 == old(securityQuestion1) && pin == old(pin)
      ensures cashBalance == old(cashBalance) && bankBalance == old(bankBalance) && currentStep == old(currentStep)
    {
      securityAnswer1 := text;
    }

    /**
     * "Finish": a PIN of the wrong length or a blank question or answer
     * shows a message and saves nothing; otherwise the PIN, question and
     * answer are saved and `onComplete` receives the two opening balances.
     */
    method OnFinish() returns (completed: Option<(real, real)>)
      requires Valid() && currentStep == 3
      modifies this, prefs
      ensures Valid()
      ensures completed.Some? <==>
                |old(pin)| == PinSetup.PinLength && !IsBlank(old(securityQuestion1)) && !IsBlank(old(securityAnswer1))
      ensures |old(pin)| != PinSetup.PinLength ==>
                messages == old(messages) + [PinLengthMessage] && prefs.strings == old(prefs.strings)
      ensures |old(pin)| == PinSetup.PinLength && completed.None? ==>
                messages == old(messages) + [SecurityFieldsMessage] && prefs.strings == old(prefs.strings)
      ensures completed.Some? ==>
                messages == old(messages) &&
                prefs.PinCode() == Some(pin) && AllDigits(prefs.PinCode().value) &&
                prefs.SecurityQuestion1() == Some(securityQuestion1) &&
                prefs.SecurityAnswer1() == Some(securityAnswer1) &&
                prefs.SelectedCurrencySymbol() == old(prefs.SelectedCurrencySymbol()) &&
                completed.value == (OpeningAmount(cashBalance), OpeningAmount(bankBalance))
      ensures completed.Some? ==> completed.value.0 >= 0.0 && completed.value.1 >= 0.0
      ensures prefs.bools == old(prefs.bools)
      ensures pin == old(pin) && securityQuestion1 == old(securityQuestion1) && securityAnswer1 == old(securityAnswer1)
      ensures cashBalance == old(cashBalance) && bankBalance == old(bankBalance) && currentStep == old(currentStep)
    {
      if |pin| != PinSetup.PinLength {
        messages := messages + [PinLengthMessage];
        return None;
      }
      if IsBlank(securityQuestion1) || IsBlank(securityAnswer1) {
        messages := messages + [SecurityFieldsMessage];
        return None;
      }
      prefs.SetPinCode(Some(pin));
      prefs.SetSecurityQuestion1(Some(securityQuestion1));
      prefs.SetSecurityAnswer1(Some(securityAnswer1));
      var cash := OpeningAmount(cashBalance);
      var bank := OpeningAmount(bankBalance);
      completed := Some((cash, bank));
    }
  }
}
